/**
 * The auto-text rule every report field shares: a chosen template is appended to
 * what is already there as a new paragraph, or becomes the whole value of an empty field.
 */
module AutoText {
  import opened Wrappers

  /** The paragraph break put between existing text and an appended template. */
  const Separator: string := "\n\n"

  /** `value ? `${value}\n\n${text}` : text` */
  function Append(current: string, text: string): (r: string)
    ensures r == text <==> current == ""
    ensures current != "" ==> r == current + Separator + text
    ensures current <= r
    ensures r[|r| - |text|..] == text
  {
    if current == "" then text else current + Separator + text
  }

  /** Templates chosen one after another, each appended by `Append`. */
  function AppendAll(current: string, texts: seq<string>): string
    decreases |texts|
  {
    if texts == [] then current
    else Append(AppendAll(current, texts[..|texts| - 1]), texts[|texts| - 1])
  }

  /** The texts as paragraphs: joined by `Separator`. */
  function Paragraphs(texts: seq<string>): string
    decreases |texts|
  {
    if texts == [] then ""
    else if |texts| == 1 then texts[0]
    else Paragraphs(texts[..|texts| - 1]) + Separator + texts[|texts| - 1]
  }

  /**
   * Choosing non-empty templates one after another never loses text: the field
   * ends up as its old value followed by the templates as separate paragraphs.
   */
  lemma {:induction false} AppendAllIsParagraphs(current: string, texts: seq<string>)
    requires forall i :: 0 <= i < |texts| ==> texts[i] != ""
    ensures texts != [] ==> Paragraphs(texts) != ""
    ensures AppendAll(current, texts) ==
      if texts == [] then current
      else if current == "" then Paragraphs(texts)
      else current + Separator + Paragraphs(texts)
    decreases |texts|
  {
    if texts != [] {
      var n := |texts|;
      var init, last := texts[..n - 1], texts[n - 1];
      AppendAllIsParagraphs(current, init);
      assert AppendAll(current, texts) == Append(AppendAll(current, init), last);
      if n == 1 {
        assert init == [];
        assert Paragraphs(texts) == last;
      } else {
        assert Paragraphs(texts) == Paragraphs(init) + Separator + last;
        if current == "" {
          assert AppendAll(current, init) == Paragraphs(init) != "";
        } else {
          assert AppendAll(current, init) == current + Separator + Paragraphs(init);
          assert current + Separator + Paragraphs(init) + Separator + last
              == current + Separator + (Paragraphs(init) + Separator + last);
        }
      }
    }
  }

  /**
   * The select handler of `AutoFillInput` (and of the fields of sections A and C and of the
   * generic section): the blank "Auto-fill..." option changes nothing, any other
   * option appends its value.
   */
  function OnSelect(value: string, selected: string): (r: Option<string>)
    ensures r.None? <==> selected == ""
    ensures r.Some? ==> r.value == Append(value, selected)
  {
    if selected == "" then None else Some(Append(value, selected))
  }

  /** One `<option>`: the value it submits and the caption it shows. */
  datatype SelectOption = SelectOption(value: string, caption: string)

  /** JavaScript's `s.substring(0, n)` for a non-negative `n`. */
  function Prefix(s: string, n: nat): (r: string)
    ensures r <= s && |r| == if n < |s| then n else |s|
  {
    if n < |s| then s[..n] else s
  }

  /** `AutoFillInput`'s options: each shows the first 40 characters plus "..." and submits the full response. */
  function AutoFillOptions(responses: seq<string>): (r: seq<SelectOption>)
    ensures |r| == |responses|
    ensures forall i :: 0 <= i < |r| ==> r[i].value == responses[i]
    ensures forall i :: 0 <= i < |r| ==> |r[i].caption| <= 43 && r[i].caption == Prefix(responses[i], 40) + "..."
  {
    seq(|responses|, i requires 0 <= i < |responses| => SelectOption(responses[i], Prefix(responses[i], 40) + "..."))
  }

  /** Choosing the i-th option appends the whole response, however long, not its shortened caption. */
  lemma ChosenOptionAppendsFullResponse(value: string, responses: seq<string>, i: nat)
    requires i < |responses| && responses[i] != ""
    ensures OnSelect(value, AutoFillOptions(responses)[i].value) == Some(Append(value, responses[i]))
  {
  }

  /** The template-table key of a subsection field: `${id}_${field}`. */
  function LookupKey(id: string, field: string): string
  {
    id + "_" + field
  }

  /** Ids without an underscore give every (id, field) pair its own key. */
  lemma LookupKeyInjective(id1: string, field1: string, id2: string, field2: string)
    requires '_' !in id1 && '_' !in id2
    requires LookupKey(id1, field1) == LookupKey(id2, field2)
    ensures id1 == id2 && field1 == field2
  {
    var k := LookupKey(id1, field1);
    assert k[|id1|] == '_' && k[|id2|] == '_';
    assert id1 == k[..|id1|] == id2;
    assert field1 == k[|id1| + 1..] == field2;
  }
}
