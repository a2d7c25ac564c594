/**
The in-memory image index (pkg/store/image/image.go): a map of images that is
updated in place, and the history that it stands for.
*/
module ImageStore {
  import opened Wrappers

  datatype Image = Image(
    id: string,
    repoTags: seq<string>,
    repoDigests: seq<string>,
    chainId: string,
    size: int,
    config: string)

  predicate NoDuplicates(s: seq<string>) {
    forall i, j :: 0 <= i < j < |s| ==> s[i] != s[j]
  }

  function Elements(s: seq<string>): set<string> {
    set x | x in s
  }

  lemma ElementsSnoc(s: seq<string>, x: string)
    ensures Elements(s + [x]) == Elements(s) + {x}
  {
  }

  /** The strings of a list, put into a set one by one. */
  method Collect(a: seq<string>) returns (all: set<string>)
    ensures all == Elements(a)
  {
    all := {};
    for i := 0 to |a|
      invariant all == Elements(a[..i])
    {
      assert a[..i + 1] == a[..i] + [a[i]];
      ElementsSnoc(a[..i], a[i]);
      all := all + {a[i]};
    }
    assert a[..|a|] == a;
  }

  /** A walk over a set, in whatever order. */
  method Walk(all: set<string>) returns (ss: seq<string>)
    ensures Elements(ss) == all && NoDuplicates(ss)
  {
    ss := [];
    var left := all;
    while left != {}
      invariant left !! Elements(ss) && left + Elements(ss) == all && NoDuplicates(ss)
      decreases |left|
    {
      var s :| s in left;
      assert s !in Elements(ss);
      ElementsSnoc(ss, s);
      ss := ss + [s];
      left := left - {s};
    }
  }

  /**
  mergeStringSlices: the union of two lists, without duplicates, in an order
  that depends on how the Go map happens to be walked.
  */
  method MergeStringSlices(a: seq<string>, b: seq<string>) returns (ss: seq<string>)
    ensures Elements(ss) == Elements(a) + Elements(b)
    ensures NoDuplicates(ss)
  {
    var x := Collect(a);
    var y := Collect(b);
    ss := Walk(x + y);
  }

  // -------------------------------------------------------------- history

  /** What the index says of one image, without the order of its lists. */
  datatype View = View(tags: set<string>, digests: set<string>, chainId: string, size: int, config: string)

  datatype Op = Add(img: Image) | Delete(id: string)

  function ViewOf(img: Image): View {
    View(Elements(img.repoTags), Elements(img.repoDigests), img.chainId, img.size, img.config)
  }

  function Apply(m: map<string, View>, op: Op): map<string, View> {
    match op
    case Delete(id) => m - {id}
    case Add(img) =>
      if img.id in m then
        m[img.id := m[img.id].(tags := m[img.id].tags + Elements(img.repoTags),
                               digests := m[img.id].digests + Elements(img.repoDigests))]
      else m[img.id := ViewOf(img)]
  }

  function Replay(ops: seq<Op>): map<string, View> {
    if ops == [] then map[] else Apply(Replay(ops[..|ops| - 1]), ops[|ops| - 1])
  }

  /** The images added under `id` since it was last deleted. */
  function SinceDelete(ops: seq<Op>, id: string): seq<Image> {
    if ops == [] then []
    else
      var before := SinceDelete(ops[..|ops| - 1], id);
      match ops[|ops| - 1]
      case Delete(x) => if x == id then [] else before
      case Add(img) => if img.id == id then before + [img] else before
  }

  function AllTags(imgs: seq<Image>): set<string> {
    set i, t | 0 <= i < |imgs| && t in imgs[i].repoTags :: t
  }

  function AllDigests(imgs: seq<Image>): set<string> {
    set i, d | 0 <= i < |imgs| && d in imgs[i].repoDigests :: d
  }

  lemma UnionSnoc(imgs: seq<Image>, img: Image)
    ensures AllTags(imgs + [img]) == AllTags(imgs) + Elements(img.repoTags)
    ensures AllDigests(imgs + [img]) == AllDigests(imgs) + Elements(img.repoDigests)
  {
    var more := imgs + [img];
    assert more[|imgs|] == img && forall i :: 0 <= i < |imgs| ==> more[i] == imgs[i];
    forall t | t in AllTags(imgs) + Elements(img.repoTags)
      ensures t in AllTags(more)
    {
      if t in AllTags(imgs) {
        var i :| 0 <= i < |imgs| && t in imgs[i].repoTags;
        assert t in more[i].repoTags;
      }
    }
    forall d | d in AllDigests(imgs) + Elements(img.repoDigests)
      ensures d in AllDigests(more)
    {
      if d in AllDigests(imgs) {
        var i :| 0 <= i < |imgs| && d in imgs[i].repoDigests;
        assert d in more[i].repoDigests;
      }
    }
  }

  /**
  The index refines its history: an image is known exactly if it was added
  since its last deletion; its tags and digests are the unions over those
  additions, and its chain id, size and config come from the first of them.
  */
  lemma {:induction false} ReplayIsHistory(ops: seq<Op>, id: string)
    ensures var adds := SinceDelete(ops, id); var m := Replay(ops);
      && (id in m <==> adds != [])
      && (id in m ==> m[id] == View(AllTags(adds), AllDigests(adds), adds[0].chainId, adds[0].size, adds[0].config))
    decreases |ops|
  {
    if ops != [] {
      var before := ops[..|ops| - 1];
      ReplayIsHistory(before, id);
      var op := ops[|ops| - 1];
      if op.Add? && op.img.id == id {
        var adds := SinceDelete(before, id);
        UnionSnoc(adds, op.img);
        if adds == [] {
          assert AllTags([]) == {} && AllDigests([]) == {};
        }
      }
    }
  }

  // ---------------------------------------------------------------- store

  class Store {
    var images: map<string, Image>

    ghost function Views(): map<string, View>
      reads this
    {
      map id | id in images :: ViewOf(images[id])
    }

    ghost predicate Keyed()
      reads this
    {
      forall id :: id in images ==> images[id].id == id
    }

    ghost predicate DuplicateFree()
      reads this
    {
      forall id :: id in images ==> NoDuplicates(images[id].repoTags) && NoDuplicates(images[id].repoDigests)
    }

    constructor ()
      ensures images == map[]
    {
      images := map[];
    }

    method AddImage(img: Image)
      requires Keyed()
      modifies this
      ensures Keyed() && Views() == Apply(old(Views()), Add(img))
      ensures old(DuplicateFree()) && NoDuplicates(img.repoTags) && NoDuplicates(img.repoDigests) ==> DuplicateFree()
    {
      if img.id !in images {
        images := images[img.id := img];
        return;
      }
      var i := images[img.id];
      var tags := MergeStringSlices(i.repoTags, img.repoTags);
      var digests := MergeStringSlices(i.repoDigests, img.repoDigests);
      images := images[img.id := i.(repoTags := tags, repoDigests := digests)];
    }

    method Get(id: string) returns (r: Option<Image>)
      ensures r.Some? <==> id in images
      ensures r.Some? ==> r.value == images[id]
    {
      r := if id in images then Some(images[id]) else None;
    }

    method DeleteImage(id: string)
      requires Keyed()
      modifies this
      ensures Keyed() && Views() == Apply(old(Views()), Delete(id))
      ensures images == old(images) - {id}
      ensures old(DuplicateFree()) ==> DuplicateFree()
    {
      images := images - {id};
    }
  }

  predicate CleanOp(op: Op) {
    op.Add? ==> NoDuplicates(op.img.repoTags) && NoDuplicates(op.img.repoDigests)
  }

  /** Any sequence of additions and deletions on a new store. */
  method RunHistory(ops: seq<Op>) returns (s: Store)
    ensures fresh(s) && s.Keyed() && s.Views() == Replay(ops)
    ensures (forall i :: 0 <= i < |ops| ==> CleanOp(ops[i])) ==> s.DuplicateFree()
  {
    s := new Store();
    for i := 0 to |ops|
      invariant fresh(s) && s.Keyed() && s.Views() == Replay(ops[..i])
      invariant (forall j :: 0 <= j < i ==> CleanOp(ops[j])) ==> s.DuplicateFree()
    {
      assert ops[..i + 1][..i] == ops[..i];
      match ops[i]
      case Add(img) => s.AddImage(img);
      case Delete(id) => s.DeleteImage(id);
    }
    assert ops[..|ops|] == ops;
  }
}
