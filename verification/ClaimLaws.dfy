/** Which lines forbid a claim, in the fields of the lines and of the request. */
module ClaimLaws {
  import opened Json
  import opened EncoderHistory
  import opened EncoderTables

  /** The line forbids another send unless its caller overrides it. */
  predicate Insists(s: Status, allowRepeat: bool, acknowledgeUnknown: bool) {
    match s
    case Sending => true
    case Accepted => !allowRepeat
    case Unknown => !acknowledgeUnknown
    case _ => false
  }

  /** The line may be the same source: same release and path, and by hash, content or doubt not provably another one. */
  ghost predicate MaybeSame(line: Item, file: Item) {
    && line.release == file.release && line.relativePath == file.relativePath
    && (line.infoHash == file.infoHash
        || (line.content.Some? && file.content.Some? && line.content.value == file.content.value)
        || line.conflict
        || (line.status == Unknown && (line.content.None? || file.content.None?)))
  }

  /** The line was sent, and may still count, for the same version and path with the request's server and presets. */
  ghost predicate SentAlike(groups: seq<Group>, p: Ref, q: Request, file: Item) {
    && HasRef(groups, p) && groups[p.group].target == q.target && groups[p.group].presets == q.presets
    && At(groups, p).infoHash == file.infoHash && At(groups, p).relativePath == file.relativePath
    && At(groups, p).status in {Sending, Accepted, Unknown}
  }

  ghost predicate NewestSentAlike(groups: seq<Group>, p: Ref, q: Request, file: Item) {
    && SentAlike(groups, p, q, file)
    && forall r :: SentAlike(groups, r, q, file) ==> r == p || r.group < p.group || (r.group == p.group && r.index < p.index)
  }

  predicate EitherAutomatic(groups: seq<Group>, p: Ref, q: Request)
    requires HasRef(groups, p)
  {
    q.origin.Automatic? || groups[p.group].origin.Automatic?
  }

  /** Line `p` stands in the way of the file: it insists, and is the newest sent alike or may be the same automatic source. */
  ghost predicate StandsInTheWay(groups: seq<Group>, q: Request, file: Item, p: Ref) {
    && file.infoHash != "" && HasRef(groups, p) && Insists(At(groups, p).status, q.allowRepeat, q.acknowledgeUnknown)
    && (NewestSentAlike(groups, p, q, file) || (EitherAutomatic(groups, p, q) && MaybeSame(At(groups, p), file)))
  }

  ghost predicate WayIsClear(groups: seq<Group>, q: Request) {
    forall i, p :: 0 <= i < |q.items| ==> !StandsInTheWay(groups, q, q.items[i], p)
  }

  lemma NewestMeans(groups: seq<Group>, q: Request, file: Item, p: Ref)
    ensures NewestLive(groups, |groups|, q.target, q.presets, file.infoHash, file.relativePath) == Some(p) <==>
      NewestSentAlike(groups, p, q, file)
  {
    var r := NewestLive(groups, |groups|, q.target, q.presets, file.infoHash, file.relativePath);
    NewestContract(groups, q.target, q.presets, file.infoHash, file.relativePath);
    hide NewestLive;
    forall x: Ref
      ensures SentAlike(groups, x, q, file) <==>
        HasRef(groups, x) && SameSend(groups[x.group], x.index, q.target, q.presets, file.infoHash, file.relativePath)
    {}
    hide SentAlike, SameSend;
    if r.Some? { assert SentAlike(groups, r.value, q, file); }
  }

  lemma NewestContract(groups: seq<Group>, target: string, presets: Presets, infoHash: string, path: string)
    ensures var r := NewestLive(groups, |groups|, target, presets, infoHash, path);
      && (r.Some? ==> HasRef(groups, r.value) && SameSend(groups[r.value.group], r.value.index, target, presets, infoHash, path))
      && forall x: Ref :: HasRef(groups, x) && SameSend(groups[x.group], x.index, target, presets, infoHash, path)
           ==> r.Some? && (x == r.value || Before(x, r.value))
  {
    hide SameSend;
  }

  lemma ForbidsMeans(groups: seq<Group>, q: Request, i: nat, p: Ref)
    requires i < |q.items|
    ensures Forbids(groups, q, i, p) <==> StandsInTheWay(groups, q, q.items[i], p)
  {
    NewestMeans(groups, q, q.items[i], p);
    hide NewestLive, NewestSentAlike;
  }

  /** The conflict checks pass if and only if no line stands in the way of any file. */
  lemma ClearMeans(groups: seq<Group>, q: Request)
    ensures Clear(groups, q) <==> WayIsClear(groups, q)
  {
    forall i, p | 0 <= i < |q.items|
      ensures Forbids(groups, q, i, p) <==> StandsInTheWay(groups, q, q.items[i], p)
    {
      ForbidsMeans(groups, q, i, p);
    }
    hide Forbids, StandsInTheWay;
  }

  /**
   If nothing stands in the way, then next to every insisting line of the same
   release and path, with either side automatic, the file is provably another
   one: another hash, contents that are not both known and equal, no changed
   source, and an unknown line only with both contents known.
   */
  lemma ClearFilesAreOthers(groups: seq<Group>, q: Request, i: nat, p: Ref)
    requires WayIsClear(groups, q) && i < |q.items| && q.items[i].infoHash != "" && HasRef(groups, p)
    requires Insists(At(groups, p).status, q.allowRepeat, q.acknowledgeUnknown) && EitherAutomatic(groups, p, q)
    requires At(groups, p).release == q.items[i].release && At(groups, p).relativePath == q.items[i].relativePath
    ensures var line, file := At(groups, p), q.items[i];
      && line.infoHash != file.infoHash && !line.conflict
      && !(line.content.Some? && file.content.Some? && line.content.value == file.content.value)
      && (line.status == Unknown ==> line.content.Some? && file.content.Some?)
  {
    assert !StandsInTheWay(groups, q, q.items[i], p);
  }
}
