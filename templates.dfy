/**
 * The template manager: each section key has a list of auto-text templates that the
 * user can extend with a typed text (trimmed, ignored when blank) or shorten by deleting
 * one entry.
 */
module Templates {
  import Lists

  /** The templates of every key: `Record<string, string[]>`. */
  type TemplateSet = map<string, seq<string>>

  /**
   * The characters `String.prototype.trim` removes: the ECMAScript WhiteSpace and
   * LineTerminator code points.
   */
  predicate IsJsWhitespace(c: char)
  {
    var n := c as int;
    || 0x09 <= n <= 0x0D
    || n == 0x20 || n == 0xA0 || n == 0x1680
    || 0x2000 <= n <= 0x200A
    || n == 0x2028 || n == 0x2029 || n == 0x202F || n == 0x205F || n == 0x3000 || n == 0xFEFF
  }

  /** Every character of `s` is whitespace. */
  predicate AllWhitespace(s: string)
  {
    forall i :: 0 <= i < |s| ==> IsJsWhitespace(s[i])
  }

  /** `s` without its leading whitespace. */
  function TrimStart(s: string): (r: string)
    ensures |r| <= |s| && r == s[|s| - |r|..]
    ensures AllWhitespace(s[..|s| - |r|])
    ensures r == [] || !IsJsWhitespace(r[0])
    decreases |s|
  {
    if s != [] && IsJsWhitespace(s[0]) then
      var r := TrimStart(s[1..]);
      assert s[..|s| - |r|] == [s[0]] + s[1..][..|s[1..]| - |r|];
      r
    else s
  }

  /** `s` without its trailing whitespace. */
  function TrimEnd(s: string): (r: string)
    ensures |r| <= |s| && r == s[..|r|]
    ensures AllWhitespace(s[|r|..])
    ensures r == [] || !IsJsWhitespace(r[|r| - 1])
    decreases |s|
  {
    if s != [] && IsJsWhitespace(s[|s| - 1]) then
      var r := TrimEnd(s[..|s| - 1]);
      assert s[|r|..] == s[..|s| - 1][|r|..] + [s[|s| - 1]];
      r
    else s
  }

  /** `s.trim()` */
  function Trim(s: string): string
  {
    TrimEnd(TrimStart(s))
  }

  /**
   * Trimming leaves a contiguous part `s[i..j]` of the text with no whitespace at either
   * end, and everything cut off before `i` and after `j` is whitespace.
   */
  lemma TrimShape(s: string)
    ensures var t := Trim(s);
      var i := |s| - |TrimStart(s)|;
      && i + |t| <= |s|
      && t == s[i..i + |t|]
      && AllWhitespace(s[..i])
      && AllWhitespace(s[i + |t|..])
    ensures var t := Trim(s); t == [] || (!IsJsWhitespace(t[0]) && !IsJsWhitespace(t[|t| - 1]))
  {
    var a := TrimStart(s);
    var t := TrimEnd(a);
    var i := |s| - |a|;
    assert t == a[..|t|] == s[i..i + |t|];
    assert s[i + |t|..] == a[|t|..];
    if t != [] {
      assert t[0] == a[0];
    }
  }

  /** A text trims to nothing exactly when it is all whitespace (the empty text included). */
  lemma TrimEmptyIffBlank(s: string)
    ensures Trim(s) == "" <==> AllWhitespace(s)
  {
    var a := TrimStart(s);
    if Trim(s) == "" {
      assert a == [];
      assert s[..|s|] == s;
    } else if a != [] {
      assert a[0] == s[|s| - |a|];
    }
  }

  /** Trimming twice is trimming once. */
  lemma TrimIdempotent(s: string)
    ensures Trim(Trim(s)) == Trim(s)
  {
    TrimShape(s);
  }

  /** `managed[key] || []` */
  function TemplatesOf(managed: TemplateSet, key: string): (r: seq<string>)
    ensures key in managed ==> r == managed[key]
    ensures key !in managed ==> r == []
  {
    if key in managed then managed[key] else []
  }

  /** `copy.splice(index, 1)`: removes the entry at `index`; an index past the end removes nothing. */
  function SpliceOne(xs: seq<string>, index: nat): (r: seq<string>)
    ensures index < |xs| ==> r == Lists.RemoveAt(xs, index)
    ensures index >= |xs| ==> r == xs
  {
    if index < |xs| then xs[..index] + xs[index + 1..] else xs
  }

  /**
   * The delete button's splice, done as the source does it: copy the list into a
   * fresh array, shift the entries after `index` one place down, and drop the last slot.
   */
  method SpliceCopy(xs: seq<string>, index: nat) returns (r: seq<string>)
    ensures r == SpliceOne(xs, index)
  {
    if index >= |xs| {
      return xs;
    }
    var a := new string[|xs|](i requires 0 <= i < |xs| => xs[i]);
    var k := index;
    while k + 1 < a.Length
      invariant index <= k < a.Length
      invariant a[..index] == xs[..index]
      invariant a[index..k] == xs[index + 1..k + 1]
      invariant a[k + 1..] == xs[k + 1..]
      decreases a.Length - k
    {
      a[k] := a[k + 1];
      k := k + 1;
    }
    r := a[..a.Length - 1];
    assert r == a[..index] + a[index..k];
  }

  /** Deleting template `index` of a key: that list loses exactly that entry; other keys are untouched. */
  function DeleteTemplate(managed: TemplateSet, key: string, index: nat): (r: TemplateSet)
    ensures r.Keys == managed.Keys + {key}
    ensures r[key] == SpliceOne(TemplatesOf(managed, key), index)
    ensures forall k :: k in managed && k != key ==> r[k] == managed[k]
  {
    managed[key := SpliceOne(TemplatesOf(managed, key), index)]
  }

  /**
   * Adding a typed template: a blank text changes nothing; otherwise the trimmed text
   * is appended to the key's list and other keys are untouched.
   */
  function AddTemplate(managed: TemplateSet, key: string, input: string): (r: TemplateSet)
    ensures AllWhitespace(input) ==> r == managed
    ensures !AllWhitespace(input) ==> r == managed[key := TemplatesOf(managed, key) + [Trim(input)]]
  {
    TrimEmptyIffBlank(input);
    if Trim(input) == "" then managed else managed[key := TemplatesOf(managed, key) + [Trim(input)]]
  }

  /** An added template is never blank and has no whitespace at either end. */
  lemma AddedTemplateIsTrimmed(managed: TemplateSet, key: string, input: string)
    requires !AllWhitespace(input)
    ensures var added := Last(AddTemplate(managed, key, input)[key]);
      && added != ""
      && !IsJsWhitespace(added[0]) && !IsJsWhitespace(added[|added| - 1])
      && |AddTemplate(managed, key, input)[key]| == |TemplatesOf(managed, key)| + 1
  {
    TrimEmptyIffBlank(input);
    TrimShape(input);
  }

  /** The last entry of a non-empty list. */
  function Last(xs: seq<string>): string
  {
    if xs == [] then "" else xs[|xs| - 1]
  }

  /** Deleting the template just added restores the key's previous list. */
  lemma DeleteUndoesAdd(managed: TemplateSet, key: string, input: string)
    requires !AllWhitespace(input)
    ensures var added := AddTemplate(managed, key, input);
      DeleteTemplate(added, key, |TemplatesOf(managed, key)|)[key] == TemplatesOf(managed, key)
  {
  }
}
