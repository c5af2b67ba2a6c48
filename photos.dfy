/** Photos as the editor passes them around: `{ id, url }`, shared by reference between lists. */
module Photos {
  import opened Wrappers
  import Lists

  datatype Photo = Photo(id: string, url: string)

  /** The ids of a photo list in list order (the sortable item ids of a section's drop zone). */
  function Ids(ps: seq<Photo>): (r: seq<string>)
    ensures |r| == |ps|
    ensures forall i :: 0 <= i < |ps| ==> r[i] == ps[i].id
  {
    seq(|ps|, i requires 0 <= i < |ps| => ps[i].id)
  }

  /** `ps.findIndex(p => p.id === id)`: the first index holding that id, or -1. */
  function IndexOfId(ps: seq<Photo>, id: string): (k: int)
    ensures -1 <= k < |ps|
    ensures k == -1 <==> id !in Ids(ps)
    ensures k >= 0 ==> ps[k].id == id && id !in Ids(ps[..k])
    decreases |ps|
  {
    if ps == [] then -1
    else if ps[0].id == id then 0
    else
      var k := IndexOfId(ps[1..], id);
      assert Ids(ps) == [ps[0].id] + Ids(ps[1..]);
      if k == -1 then -1
      else
        assert Ids(ps[..k + 1]) == [ps[0].id] + Ids(ps[1..][..k]);
        k + 1
  }

  /** `ps.find(p => p.id === id)`: the first photo with that id, if any. */
  function FindById(ps: seq<Photo>, id: string): (r: Option<Photo>)
    ensures r.None? <==> id !in Ids(ps)
    ensures r.Some? ==> r.value.id == id && r.value in ps
    ensures r.Some? ==> r.value == ps[IndexOfId(ps, id)]
  {
    var k := IndexOfId(ps, id);
    if k == -1 then None else Some(ps[k])
  }

  /** `ps.filter(p => p.id !== id)`. */
  function WithoutId(ps: seq<Photo>, id: string): (r: seq<Photo>)
    ensures id !in Ids(r)
    ensures forall p :: p in r <==> p in ps && p.id != id
  {
    var r := Lists.Filter(ps, (p: Photo) => p.id != id);
    assert forall i :: 0 <= i < |r| ==> r[i] in r;
    r
  }

  /**
   * Removal by id keeps the order of what stays: it distributes over any split of the
   * list, drops a single photo exactly when it has the id, and leaves a list without
   * the id as it was.
   */
  lemma WithoutIdKeepsOrder(ps: seq<Photo>, qs: seq<Photo>, p: Photo, id: string)
    ensures WithoutId(ps + qs, id) == WithoutId(ps, id) + WithoutId(qs, id)
    ensures WithoutId([p], id) == if p.id == id then [] else [p]
    ensures id !in Ids(ps) ==> WithoutId(ps, id) == ps
  {
    var keep := (x: Photo) => x.id != id;
    Lists.FilterConcat(ps, qs, keep);
    assert Lists.Filter([p], keep) == (if keep(p) then [p] else []) + Lists.Filter([], keep);
    if id !in Ids(ps) {
      forall x | x in ps ensures keep(x) {
        var i :| 0 <= i < |ps| && ps[i] == x;
        assert Ids(ps)[i] == x.id;
      }
      Lists.FilterKeepsAll(ps, keep);
    }
  }

  /**
   * An `<input type="file">` change hands on only its first file, tagged with the
   * id of the field or subsection it belongs to; no file, no call. This is the
   * subsection photo input of sections D and H as it stands.
   */
  function FirstFile<F>(tag: string, files: seq<F>): (r: Option<(string, F)>)
    ensures r.None? <==> files == []
    ensures r.Some? ==> r.value.0 == tag && r.value.1 == files[0]
  {
    if files == [] then None else Some((tag, files[0]))
  }
}
