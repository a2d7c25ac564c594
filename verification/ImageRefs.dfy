/**
Image references: what PullImage and RemoveImage keep in containerd's image
store (pkg/server/image_pull.go, image_remove.go, helpers.go) against the
in-memory index.
*/
module ImageRefs {
  import opened Wrappers
  import opened ImageStore

  // ------------------------------------------------------------ references

  /** A parsed reference: a repository with, possibly, a tag and a digest. */
  datatype Named = Named(name: string, tag: Option<string>, digest: Option<string>)

  const DEFAULT_TAG := "latest"

  function Text(n: Named): string {
    n.name
    + (if n.tag.Some? then ":" + n.tag.value else "")
    + (if n.digest.Some? then "@" + n.digest.value else "")
  }

  /** normalizeImageRef, after parsing: never both a tag and a digest, and always one of them. */
  function Normalize(n: Named): (r: Named)
    ensures r.name == n.name && r.tag.Some? != r.digest.Some?
    ensures n.digest.Some? ==> r == Named(n.name, None, n.digest)
    ensures n.digest.None? && n.tag.Some? ==> r == n
    ensures n.digest.None? && n.tag.None? ==> r == Named(n.name, Some("latest"), None)
  {
    if n.tag.Some? && n.digest.Some? then n.(tag := None)
    else if n.tag.None? && n.digest.None? then n.(tag := Some(DEFAULT_TAG))
    else n
  }

  /** getRepoDigestAndTag: (repo digest, repo tag), each empty when there is none. */
  function RepoDigestAndTag(n: Named, digest: string, schema1: bool): (string, string) {
    (if n.digest.Some? then Text(n) else if !schema1 then n.name + "@" + digest else "",
     if n.tag.Some? then Text(n) else "")
  }

  /** A normalized reference is its own repo tag or repo digest, so pullImage's consistency check never fires. */
  lemma GuardNeverFires(n: Named, digest: string, schema1: bool)
    ensures var (repoDigest, repoTag) := RepoDigestAndTag(Normalize(n), digest, schema1);
            Text(Normalize(n)) == repoTag || Text(Normalize(n)) == repoDigest
  {
  }

  /** Normalizing again changes nothing. */
  lemma NormalizeIdempotent(n: Named)
    ensures Normalize(Normalize(n)) == Normalize(n)
  {
  }

  /** The text of a normalized reference: by digest if one is given, else by tag, else by the tag "latest". */
  lemma NormalizedText(n: Named)
    ensures n.digest.Some? ==> Text(Normalize(n)) == n.name + "@" + n.digest.value
    ensures n.digest.None? && n.tag.Some? ==> Text(Normalize(n)) == n.name + ":" + n.tag.value
    ensures n.digest.None? && n.tag.None? ==> Text(Normalize(n)) == n.name + ":latest"
  {
    assert ":" + "latest" == ":latest";
    assert n.digest.Some? ==> n.name + "" + ("@" + n.digest.value) == n.name + "@" + n.digest.value;
    assert n.tag.Some? ==> n.name + (":" + n.tag.value) + "" == n.name + ":" + n.tag.value;
    assert n.name + ":latest" + "" == n.name + ":latest";
  }

  // -------------------------------------------------------------- coverage

  type Refs = map<string, string>      // reference to descriptor
  type Views = map<string, View>       // image id to what the index says of it

  /** `ref` is a tag, a digest or the id of the image `id` in the index. */
  predicate Recorded(views: Views, ref: string, id: string) {
    id in views && (ref == id || ref in views[id].tags || ref in views[id].digests)
  }

  /** Every reference but those in `loose` is recorded under the image that its target resolves to. */
  ghost predicate Covers(refs: Refs, views: Views, configOf: string -> string, loose: set<string>) {
    forall ref :: ref in refs && ref !in loose ==> Recorded(views, ref, configOf(refs[ref]))
  }

  /** `refs2` differs from `refs` at most in that some of `names` now point to `desc`. */
  ghost predicate Repointed(refs: Refs, refs2: Refs, names: set<string>, desc: string) {
    && (forall x :: x in refs2 ==> (x in refs && refs2[x] == refs[x]) || (x in names && refs2[x] == desc))
    && (forall x :: x in refs ==> x in refs2)
  }

  /** A pull: the names of the image now point to `desc`, and are loose no more. */
  lemma PullCovers(refs: Refs, refs2: Refs, views: Views, configOf: string -> string, img: Image, desc: string,
                   loose: set<string>)
    requires Covers(refs, views, configOf, loose) && img.id == configOf(desc)
    requires var names := Elements(img.repoTags) + Elements(img.repoDigests) + {img.id};
      Repointed(refs, refs2, names, desc) && forall x :: x in names ==> x in refs2 && refs2[x] == desc
    ensures var names := Elements(img.repoTags) + Elements(img.repoDigests) + {img.id};
      Covers(refs2, Apply(views, Add(img)), configOf, loose - names)
  {
    var views2 := Apply(views, Add(img));
    var names := Elements(img.repoTags) + Elements(img.repoDigests) + {img.id};
    forall ref | ref in refs2 && ref !in loose - names
      ensures Recorded(views2, ref, configOf(refs2[ref]))
    {
      if ref !in names {
        assert Recorded(views, ref, configOf(refs[ref]));
      }
    }
  }

  /** With all recorded references of an image deleted, none of the others resolves to it, unless it is loose. */
  lemma RemoveCovers(refs: Refs, refs2: Refs, views: Views, configOf: string -> string, id: string, loose: set<string>)
    requires Covers(refs, views, configOf, loose) && id in views
    requires forall x :: x in refs2 ==> x in refs && refs2[x] == refs[x]
    requires forall x :: x in refs2 ==> x != id && x !in views[id].tags && x !in views[id].digests
    ensures forall x :: x in refs2 && x !in loose ==> configOf(refs2[x]) != id
    ensures Covers(refs2, Apply(views, Delete(id)), configOf, loose)
  {
    forall x | x in refs2 && x !in loose
      ensures configOf(refs2[x]) != id && Recorded(Apply(views, Delete(id)), x, configOf(refs2[x]))
    {
      assert Recorded(views, x, configOf(refs[x]));
    }
  }

  lemma FewerCovers(refs: Refs, refs2: Refs, views: Views, configOf: string -> string, loose: set<string>)
    requires Covers(refs, views, configOf, loose) && forall x :: x in refs2 ==> x in refs && refs2[x] == refs[x]
    ensures Covers(refs2, views, configOf, loose)
  {
  }

  lemma DeletedViews(views: Views, id: string)
    ensures Apply(views, Delete(id)) == views - {id}
  {
  }

  /** References that some of `names` were moved away from, or not, can only be loose among `names`. */
  lemma LooseCovers(refs: Refs, refs2: Refs, views: Views, configOf: string -> string, names: set<string>,
                    desc: string, loose: set<string>)
    requires Covers(refs, views, configOf, loose) && Repointed(refs, refs2, names, desc)
    ensures Covers(refs2, views, configOf, loose + names)
  {
    forall x | x in refs2 && x !in loose + names
      ensures Recorded(views, x, configOf(refs2[x]))
    {
      assert Recorded(views, x, configOf(refs[x]));
    }
  }

  // ------------------------------------------------------------- histories

  /** The names a pull puts into containerd's image store. */
  function PullNames(parsed: Named, desc: string, schema1: bool, id: string): set<string> {
    var (repoDigest, repoTag) := RepoDigestAndTag(Normalize(parsed), desc, schema1);
    (if repoTag != "" then {repoTag} else {}) + (if repoDigest != "" then {repoDigest} else {}) + {id}
  }

  /** By tag, a pull names the tag, the digest unless it is of schema 1, and the id; by digest, that and the id. */
  lemma PullNamesAre(n: Named, desc: string, schema1: bool, id: string)
    requires n.name != ""
    ensures var names := PullNames(n, desc, schema1, id);
      var byDigest := if schema1 then {} else {n.name + "@" + desc};
      && (n.digest.Some? ==> names == {n.name + "@" + n.digest.value, id})
      && (n.digest.None? && n.tag.Some? ==> names == {n.name + ":" + n.tag.value, id} + byDigest)
      && (n.digest.None? && n.tag.None? ==> names == {n.name + ":latest", id} + byDigest)
  {
    NormalizedText(n);
    hide Text;
  }

  lemma SameNames(n: Named, desc: string, schema1: bool, id: string)
    ensures PullNames(Normalize(n), desc, schema1, id) == PullNames(n, desc, schema1, id)
    ensures Normalize(Normalize(n)) == Normalize(n) && Normalize(n).name == n.name
  {
    NormalizeIdempotent(n);
  }

  lemma AddedIsThere(views: Views, img: Image)
    ensures img.id in Apply(views, Add(img))
  {
  }

  /** The image that a pull adds to the index. */
  function PulledImage(n: Named, desc: string, schema1: bool, info: ImageInfo, id: string): Image {
    var (repoDigest, repoTag) := RepoDigestAndTag(Normalize(n), desc, schema1);
    Image(id, if repoTag != "" then [repoTag] else [], if repoDigest != "" then [repoDigest] else [],
          info.chainId, info.size, info.config)
  }

  /** Its tags, digests and id are the names of the pull; the rest is what containerd says of the image. */
  lemma PulledImageIs(n: Named, desc: string, schema1: bool, info: ImageInfo, id: string)
    requires n.name != ""
    ensures var img := PulledImage(n, desc, schema1, info, id);
      && img.id == id && img.chainId == info.chainId && img.size == info.size && img.config == info.config
      && Elements(img.repoTags) + Elements(img.repoDigests) + {id} == PullNames(n, desc, schema1, id)
      && Elements(img.repoTags) == (if n.digest.Some? then {}
                                    else {n.name + ":" + if n.tag.Some? then n.tag.value else "latest"})
  {
    NormalizedText(n);
    assert n.name + ":" + "latest" == n.name + ":latest";
    hide Text;
  }

  // ------------------------------------------------------------ what calls do

  /** containerd's references and the in-memory index. */
  datatype State = State(refs: Refs, views: Views)

  /** The image id behind a request, if it is known. */
  function Resolved(configOf: string -> string, s: State, req: Request): Option<string> {
    match req
    case Malformed => None
    case ById(id) => if id in s.views then Some(id) else None
    case ByName(n) =>
      var ref := if n.digest.Some? then n.name + "@" + n.digest.value
                 else if n.tag.Some? then n.name + ":" + n.tag.value
                 else n.name + ":latest";
      if ref in s.refs && configOf(s.refs[ref]) in s.views then Some(configOf(s.refs[ref])) else None
  }

  /**
  What a pull does: on success its names point to what was pulled and the image
  is in the index; on a failure the index stays; either way no other reference changes.
  */
  ghost predicate Pulls(configOf: string -> string, s: State, n: Named, desc: string, schema1: bool, info: ImageInfo,
                        r: Result<string>, s2: State) {
    var id := configOf(desc);
    var names := PullNames(n, desc, schema1, id);
    && Repointed(s.refs, s2.refs, names, desc)
    && (r.Ok? ==> r.value == id && forall x :: x in names ==> x in s2.refs && s2.refs[x] == desc)
    && s2.views == if r.Ok? then Apply(s.views, Add(PulledImage(n, desc, schema1, info, id))) else s.views
  }

  /**
  What a removal does: it answers with the image behind the request, and that
  image and exactly its recorded references are gone; a failure keeps the index
  and deletes no reference but recorded ones of that image.
  */
  ghost predicate Removes(configOf: string -> string, s: State, req: Request, r: Result<Option<string>>, s2: State) {
    var id := Resolved(configOf, s, req);
    && (forall x :: x in s2.refs ==> x in s.refs && s2.refs[x] == s.refs[x])
    && (forall x :: x in s.refs && x !in s2.refs ==> id.Some? && Recorded(s.views, x, id.value))
    && (r.Ok? ==> r.value == id)
    && (r.Ok? && id.Some? ==> forall x :: x in s2.refs ==> !Recorded(s.views, x, id.value))
    && s2.views == if r.Ok? && id.Some? then s.views - {id.value} else s.views
  }

  /** What an operation does, and what it answers. */
  ghost predicate Does(configOf: string -> string, s: State, op: Op, r: Result<Option<string>>, s2: State) {
    match op
    case Pull(n, desc, schema1, info, _) =>
      && (r.Ok? ==> r.value.Some?)
      && Pulls(configOf, s, n, desc, schema1, info, if r.Ok? then Ok(r.value.value) else Err(r.error), s2)
    case Remove(req, _) => Removes(configOf, s, req, r, s2)
  }

  /** What an image is asked for by: its id, a reference, or a text that is neither. */
  datatype Request = ById(id: string) | ByName(named: Named) | Malformed

  /** Whether each of the foreign calls of a pull succeeds. */
  datatype PullFate = PullFate(creates: nat -> bool, unpack: bool, info: bool)

  /** The same for a removal: the two lookups and the deletions. */
  datatype RemoveFate = RemoveFate(get: bool, config: bool, deletes: nat -> bool)

  datatype ImageInfo = ImageInfo(chainId: string, size: int, config: string)

  datatype Op =
    | Pull(parsed: Named, desc: string, schema1: bool, info: ImageInfo, pf: PullFate)
    | Remove(req: Request, rf: RemoveFate)

  /** No foreign call of the operation fails, and it is well formed. */
  ghost predicate Fine(op: Op) {
    match op
    case Pull(_, _, _, _, f) => f.unpack && f.info && forall i :: f.creates(i)
    case Remove(req, f) => !req.Malformed? && f.get && f.config && forall i :: f.deletes(i)
  }

  function Touches(op: Op, configOf: string -> string): set<string> {
    if op.Pull? then PullNames(op.parsed, op.desc, op.schema1, configOf(op.desc)) else {}
  }

  /** The references that failed pulls have left loose, after calls of which `oks[i]` says whether they succeeded. */
  function Loose(ops: seq<Op>, oks: seq<bool>, configOf: string -> string): set<string>
    requires |ops| == |oks|
  {
    if ops == [] then {}
    else
      var last := |ops| - 1;
      var before := Loose(ops[..last], oks[..last], configOf);
      if oks[last] then before - Touches(ops[last], configOf) else before + Touches(ops[last], configOf)
  }

  /** Call `i` is a failed pull of `x`, and no later pull of `x` succeeded. */
  predicate FailedLast(ops: seq<Op>, oks: seq<bool>, configOf: string -> string, x: string, i: nat)
    requires |ops| == |oks| && i < |ops|
  {
    && !oks[i] && x in Touches(ops[i], configOf)
    && forall j :: i < j < |ops| ==> !(oks[j] && x in Touches(ops[j], configOf))
  }

  ghost predicate LeftByFailure(ops: seq<Op>, oks: seq<bool>, configOf: string -> string, x: string)
    requires |ops| == |oks|
  {
    exists i :: 0 <= i < |ops| && FailedLast(ops, oks, configOf, x, i)
  }

  /** A reference is loose exactly if some pull of it failed and none after that succeeded. */
  lemma {:induction false} LooseMeaning(ops: seq<Op>, oks: seq<bool>, configOf: string -> string, x: string)
    requires |ops| == |oks|
    ensures x in Loose(ops, oks, configOf) <==> LeftByFailure(ops, oks, configOf, x)
    decreases |ops|
  {
    if ops != [] {
      var last := |ops| - 1;
      LooseMeaning(ops[..last], oks[..last], configOf, x);
      LeftNext(ops, oks, configOf, x);
      hide Touches, LeftByFailure;
    }
  }

  lemma LeftNext(ops: seq<Op>, oks: seq<bool>, configOf: string -> string, x: string)
    requires |ops| == |oks| > 0
    ensures var last := |ops| - 1; var here := x in Touches(ops[last], configOf);
      LeftByFailure(ops, oks, configOf, x) <==>
        (here && !oks[last]) || (LeftByFailure(ops[..last], oks[..last], configOf, x) && !(here && oks[last]))
  {
    hide Touches;
    var last := |ops| - 1;
    forall i | 0 <= i < last
      ensures FailedLast(ops, oks, configOf, x, i) <==>
        FailedLast(ops[..last], oks[..last], configOf, x, i) && !(x in Touches(ops[last], configOf) && oks[last])
    {
      FailedNext(ops, oks, configOf, x, i);
    }
    assert FailedLast(ops, oks, configOf, x, last) <==> x in Touches(ops[last], configOf) && !oks[last];
    hide FailedLast;
    if i :| 0 <= i < last && FailedLast(ops[..last], oks[..last], configOf, x, i) {
      assert FailedLast(ops, oks, configOf, x, i) || (x in Touches(ops[last], configOf) && oks[last]);
    }
  }

  lemma FailedNext(ops: seq<Op>, oks: seq<bool>, configOf: string -> string, x: string, i: nat)
    requires |ops| == |oks| && i < |ops| - 1
    ensures var last := |ops| - 1;
      FailedLast(ops, oks, configOf, x, i) <==>
        FailedLast(ops[..last], oks[..last], configOf, x, i) && !(x in Touches(ops[last], configOf) && oks[last])
  {
    hide Touches;
    var last := |ops| - 1;
    assert forall j :: 0 <= j < last ==> ops[..last][j] == ops[j] && oks[..last][j] == oks[j];
  }

  // --------------------------------------------------------------- service

  class ImageService {
    /** containerd's image store. */
    var refs: Refs
    const store: Store
    /** The config digest, which is the image id, behind a descriptor: content never changes. */
    const configOf: string -> string

    constructor (configOf: string -> string)
      ensures refs == map[] && fresh(store) && store.images == map[] && this.configOf == configOf
      ensures CoveredBut({})
    {
      refs := map[];
      this.configOf := configOf;
      store := new Store();
    }

    /** createImageReference: create, or update the target of an existing one. */
    method CreateImageReference(name: string, desc: string, ok: bool)
      modifies this
      ensures refs == if ok then old(refs)[name := desc] else old(refs)
    {
      if ok {
        refs := refs[name := desc];
      }
    }

    /** The loop of pullImage over the repo tag and the repo digest. */
    method CreateReferences(names: seq<string>, desc: string, f: PullFate) returns (ok: bool)
      modifies this
      ensures Repointed(old(refs), refs, (set n | n in names && n != ""), desc)
      ensures ok ==> forall n :: n in names && n != "" ==> n in refs && refs[n] == desc
      ensures (forall i :: f.creates(i)) ==> ok
    {
      for i := 0 to |names|
        invariant Repointed(old(refs), refs, (set n | n in names && n != ""), desc)
        invariant forall n :: n in names[..i] && n != "" ==> n in refs && refs[n] == desc
      {
        assert names[..i + 1] == names[..i] + [names[i]];
        if names[i] == "" {
          continue;
        }
        CreateImageReference(names[i], desc, f.creates(i));
        if !f.creates(i) {
          return false;
        }
      }
      assert names[..|names|] == names;
      ok := true;
    }

    ghost function Now(): State
      reads this, store
    {
      State(refs, store.Views())
    }

    /** Every reference is recorded, but for some that failed pulls have left loose. */
    ghost predicate CoveredBut(loose: set<string>)
      reads this, store
    {
      store.Keyed() && Covers(refs, store.Views(), configOf, loose)
    }

    /** pullImage after the content is fetched: the references by tag and digest, the layers, the reference by id. */
    method PutReferences(named: Named, desc: string, schema1: bool, f: PullFate) returns (ok: bool)
      requires named.name != "" && named == Normalize(named)
      modifies this
      ensures Repointed(old(refs), refs, PullNames(named, desc, schema1, configOf(desc)), desc)
      ensures ok ==> forall n :: n in PullNames(named, desc, schema1, configOf(desc)) ==> n in refs && refs[n] == desc
      ensures f.unpack && (forall i :: f.creates(i)) ==> ok
      ensures ok ==> f.unpack && f.creates(2)
    {
      var ref := Text(named);
      var (repoDigest, repoTag) := RepoDigestAndTag(named, desc, schema1);
      GuardNeverFires(named, desc, schema1);
      if ref != repoTag && ref != repoDigest {
        return false;
      }
      hide RepoDigestAndTag, Text, Normalize;
      ok := CreateReferences([repoTag, repoDigest], desc, f);
      ghost var names := set n | n in [repoTag, repoDigest] && n != "";
      assert PullNames(named, desc, schema1, configOf(desc)) == names + {configOf(desc)};
      if !ok || !f.unpack {
        return false;
      }
      CreateImageReference(configOf(desc), desc, f.creates(2));
      ok := f.creates(2);
    }

    /**
    PullImage, from the point where the reference has been resolved and the
    content fetched.  A successful pull leaves its references recorded and the
    one asked for pointing to what was pulled; a failed one leaves the index
    alone and can only leave loose the references it was creating.
    */
    method PullImage(parsed: Named, desc: string, schema1: bool, info: ImageInfo, f: PullFate, ghost loose: set<string>)
      returns (r: Result<string>)
      requires CoveredBut(loose) && parsed.name != ""
      modifies this, store
      ensures Pulls(configOf, old(Now()), parsed, desc, schema1, info, r, Now())
      ensures r.Ok? ==> CoveredBut(loose - PullNames(parsed, desc, schema1, configOf(desc)))
      ensures r.Ok? ==> r.value == configOf(desc) && r.value in store.images
      ensures r.Ok? && parsed.digest.None? && parsed.tag.Some? ==>
        var ref := parsed.name + ":" + parsed.tag.value; ref in refs && refs[ref] == desc
      ensures r.Err? ==> CoveredBut(loose + PullNames(parsed, desc, schema1, configOf(desc)))
      ensures r.Err? ==> store.images == old(store.images)
      ensures f.unpack && f.info && (forall i :: f.creates(i)) ==> r.Ok?
      ensures r.Ok? ==> f.unpack && f.info && f.creates(2)
    {
      hide Normalize, PullNames, Covers, Repointed;
      ghost var names := PullNames(parsed, desc, schema1, configOf(desc));
      PullNamesAre(parsed, desc, schema1, configOf(desc));
      assert names == PullNames(Normalize(parsed), desc, schema1, configOf(desc)) by {
        SameNames(parsed, desc, schema1, configOf(desc));
      }
      var ok := PutReferences(Normalize(parsed), desc, schema1, f);
      LooseCovers(old(refs), refs, store.Views(), configOf, names, desc, loose);
      if !ok {
        return Err("failed to pull image");
      }
      if !f.info {
        return Err("failed to get image information");
      }
      PulledImageIs(parsed, desc, schema1, info, configOf(desc));
      Record(parsed, desc, schema1, info);
      ghost var pulled := PulledImage(parsed, desc, schema1, info, configOf(desc));
      hide PulledImage, Apply, Elements;
      PullCovers(old(refs), refs, old(store.Views()), configOf, pulled, desc, loose);
      r := Ok(configOf(desc));
    }

    /** The image as PullImage puts it into the index. */
    method Record(parsed: Named, desc: string, schema1: bool, info: ImageInfo)
      requires store.Keyed()
      modifies store
      ensures store.Keyed() && configOf(desc) in store.images
      ensures store.Views() == Apply(old(store.Views()), Add(PulledImage(parsed, desc, schema1, info, configOf(desc))))
    {
      var (repoDigest, repoTag) := RepoDigestAndTag(Normalize(parsed), desc, schema1);
      var image := Image(configOf(desc), if repoTag != "" then [repoTag] else [],
                         if repoDigest != "" then [repoDigest] else [], info.chainId, info.size, info.config);
      store.AddImage(image);
      AddedIsThere(old(store.Views()), image);
      assert image.id in store.Views();
    }

    /** localResolve: the image id behind a request, if it is known. */
    method LocalResolve(req: Request, get: bool, config: bool) returns (r: Result<Option<string>>)
      ensures r.Err? <==>
        || req.Malformed?
        || (req.ByName? && (!get || (Text(Normalize(req.named)) in refs && !config)))
      ensures r.Ok? ==> r.value == Resolved(configOf, Now(), req)
      ensures r.Ok? && r.value.Some? ==> r.value.value in store.images
    {
      var imageID;
      match req {
        case ById(i) => imageID := i;
        case Malformed => return Err("invalid image reference");
        case ByName(n) =>
          NormalizedText(n);
          var ref := Text(Normalize(n));
          if !get {
            return Err("an error occurred when getting image");
          }
          if ref !in refs {
            return Ok(None);
          }
          if !config {
            return Err("failed to get image config descriptor");
          }
          imageID := configOf(refs[ref]);
      }
      var image := store.Get(imageID);
      r := Ok(if image.Some? then Some(imageID) else None);
    }

    /**
    RemoveImage: delete every recorded reference of the image, then its entry.
    After a successful removal no reference that is not loose resolves to it,
    and exactly the references recorded under it are gone, even one that a later
    pull has moved to another image; a failed removal keeps the entry, so that
    everything left is still recorded.
    */
    method RemoveImage(req: Request, f: RemoveFate, ghost loose: set<string>) returns (r: Result<Option<string>>)
      requires CoveredBut(loose)
      modifies this, store
      ensures CoveredBut(loose)
      ensures Removes(configOf, old(Now()), req, r, Now())
      ensures store.images == if r.Ok? && r.value.Some? then old(store.images) - {r.value.value} else old(store.images)
      ensures r.Ok? && r.value.Some? ==> forall x :: x in refs && x !in loose ==> configOf(refs[x]) != r.value.value
      ensures !req.Malformed? && f.get && f.config && (forall i :: f.deletes(i)) ==> r.Ok?
    {
      hide Resolved, Covers, Apply;
      var found := LocalResolve(req, f.get, f.config);
      if found.Err? || found.value.None? {
        return found;
      }
      var id := found.value.value;
      var image := store.images[id];
      var all := image.repoTags + image.repoDigests + [image.id];
      assert forall x :: x in all <==> Recorded(store.Views(), x, id);
      var ok := DeleteReferences(all, f);
      if !ok {
        FewerCovers(old(refs), refs, store.Views(), configOf, loose);
        return Err("failed to delete image reference");
      }
      RemoveCovers(old(refs), refs, store.Views(), configOf, id, loose);
      store.DeleteImage(image.id);
      DeletedViews(old(store.Views()), id);
      r := found;
    }

    /** The loop of RemoveImage over the recorded references. */
    method DeleteReferences(all: seq<string>, f: RemoveFate) returns (ok: bool)
      modifies this`refs
      ensures forall x :: x in refs ==> x in old(refs) && refs[x] == old(refs)[x]
      ensures forall x :: x in old(refs) && x !in refs ==> x in all
      ensures ok ==> forall x :: x in all ==> x !in refs
      ensures ok <==> forall i :: 0 <= i < |all| ==> f.deletes(i)
    {
      for i := 0 to |all|
        invariant forall x :: x in refs ==> x in old(refs) && refs[x] == old(refs)[x]
        invariant forall x :: x in old(refs) ==> (x in refs <==> x !in all[..i])
        invariant forall j :: 0 <= j < i ==> f.deletes(j)
      {
        if !f.deletes(i) {
          return false;
        }
        assert all[..i + 1] == all[..i] + [all[i]];
        refs := refs - {all[i]};
      }
      assert all[..|all|] == all;
      ok := true;
    }

    /**
    Pulls and removals in any order, any of which may fail: each does what it is
    to do, from the state that the one before has left, and only what failed
    pulls have left is not recorded.
    */
    method PerformAll(ops: seq<Op>) returns (answers: seq<Result<Option<string>>>, ghost states: seq<State>)
      requires CoveredBut({}) && forall i :: 0 <= i < |ops| && ops[i].Pull? ==> ops[i].parsed.name != ""
      modifies this, store
      ensures |answers| == |ops| && CoveredBut(Loose(ops, Oks(answers), configOf))
      ensures |states| == |ops| + 1 && states[0] == old(Now()) && states[|ops|] == Now()
      ensures forall i :: 0 <= i < |ops| ==> Does(configOf, states[i], ops[i], answers[i], states[i + 1])
      ensures forall i :: 0 <= i < |ops| && Fine(ops[i]) ==> answers[i].Ok?
      ensures (forall i :: 0 <= i < |ops| ==> Fine(ops[i])) ==> CoveredBut({})
    {
      hide CoveredBut, Fine, Does, Touches;
      answers, states := [], [Now()];
      for i := 0 to |ops|
        invariant |answers| == i && CoveredBut(Loose(ops[..i], Oks(answers), configOf))
        invariant |states| == i + 1 && states[0] == old(Now()) && states[i] == Now()
        invariant forall j :: 0 <= j < i ==> Does(configOf, states[j], ops[j], answers[j], states[j + 1])
        invariant forall j :: 0 <= j < i && Fine(ops[j]) ==> answers[j].Ok?
      {
        hide Loose;
        var answer := Perform(ops[i], Loose(ops[..i], Oks(answers), configOf));
        LooseNext(ops, Oks(answers), i, answer.Ok?, configOf);
        assert Oks(answers + [answer]) == Oks(answers) + [answer.Ok?];
        answers, states := answers + [answer], states + [Now()];
      }
      assert ops[..|ops|] == ops;
      if forall i :: 0 <= i < |ops| ==> Fine(ops[i]) {
        NothingLoose(ops, Oks(answers), configOf);
      }
    }

    method Perform(op: Op, ghost loose: set<string>) returns (r: Result<Option<string>>)
      requires CoveredBut(loose) && (op.Pull? ==> op.parsed.name != "")
      modifies this, store
      ensures Fine(op) ==> r.Ok?
      ensures Does(configOf, old(Now()), op, r, Now())
      ensures CoveredBut(if r.Ok? then loose - Touches(op, configOf) else loose + Touches(op, configOf))
    {
      hide Covers, PullNames, Pulls, Removes;
      match op {
        case Pull(parsed, desc, schema1, info, f) =>
          var id := PullImage(parsed, desc, schema1, info, f, loose);
          r := if id.Ok? then Ok(Some(id.value)) else Err(id.error);
        case Remove(req, f) =>
          r := RemoveImage(req, f, loose);
          assert loose - {} == loose && loose + {} == loose;
      }
    }
  }

  function Oks(answers: seq<Result<Option<string>>>): seq<bool> {
    seq(|answers|, i requires 0 <= i < |answers| => answers[i].Ok?)
  }

  /** Where every call succeeds, no reference is loose. */
  lemma NothingLoose(ops: seq<Op>, oks: seq<bool>, configOf: string -> string)
    requires |ops| == |oks| && forall i :: 0 <= i < |oks| ==> oks[i]
    ensures Loose(ops, oks, configOf) == {}
  {
    hide Loose;
    forall x
      ensures x !in Loose(ops, oks, configOf)
    {
      LooseMeaning(ops, oks, configOf, x);
    }
  }

  lemma {:induction false} LooseNext(ops: seq<Op>, oks: seq<bool>, i: nat, ok: bool, configOf: string -> string)
    requires i < |ops| && |oks| == i
    ensures var before := Loose(ops[..i], oks, configOf);
      Loose(ops[..i + 1], oks + [ok], configOf) ==
      if ok then before - Touches(ops[i], configOf) else before + Touches(ops[i], configOf)
  {
    hide Touches;
    assert ops[..i + 1][..i] == ops[..i] && (oks + [ok])[..i] == oks;
  }
}
