/**
 * The decision made by `run` in src/main.rs: is the checked-out HEAD commit
 * reachable from a remote-tracking branch (HEAD is its tip or an ancestor of
 * its tip) or pointed at exactly by a tag?
 *
 * The repository library is abstract here: the reference enumeration is one
 * snapshot `Listing`, each entry carries its name and the commit it peels to
 * (when peeling succeeds), and the ancestry query `graph_descendant_of` is a
 * supplied function.
 */
module PushCheck {
  import opened Wrappers

  /** A commit id (an object hash); only its equality matters here. */
  type CommitId(==)

  /** An error reported by the repository library; its text is not interpreted. */
  type GitError = string

  /** Which references to check: the `--only` option. */
  datatype Only = Branches | Tags | All

  /** One item of the reference enumeration. */
  datatype RefEntry =
    | EnumError(error: GitError)                             // the enumeration yielded an error
    | Entry(name: Option<string>, peeled: Option<CommitId>)  // the name, if readable; the commit, if peeling succeeds

  /** What listing the references gives: a failure, or the enumeration. */
  datatype Listing = ListFailed(error: GitError) | Listed(entries: seq<RefEntry>)

  /** `graph_descendant_of(commit, ancestor)`: does `commit` strictly descend from `ancestor`? */
  type AncestryQuery = (CommitId, CommitId) -> Result<bool, GitError>

  /** The fatal errors of a check, one variant per source of failure. */
  datatype Error =
    | ListingError(cause: GitError)
    | EntryError(cause: GitError)
    | AncestryError(cause: GitError)

  datatype RefKind = RemoteBranch | Tag

  /** `Ok(true)` with the reference that showed it, `Ok(false)`, or `Err`. */
  datatype Outcome = Pushed(kind: RefKind, name: string) | NotPushed | Failed(error: Error)

  /** The line printed on standard output. */
  datatype Message =
    | FoundInBranch(head: CommitId, name: string)
    | FoundInTag(head: CommitId, name: string)
    | NotPushedToRemote(head: CommitId)

  const RemotePrefix: string := "refs/remotes/"
  const TagPrefix: string := "refs/tags/"

  /** The entry is a reference whose readable name starts with `prefix`. */
  predicate InNamespace(e: RefEntry, prefix: string) {
    e.Entry? && e.name.Some? && prefix <= e.name.value
  }

  /** What one entry does to a scan: nothing, a match, or a fatal error. */
  datatype Step = Skip | Match(name: string) | Stop(error: Error)

  /** One iteration of the branch loop: equality first, then the ancestry query. */
  function BranchStep(head: CommitId, q: AncestryQuery, e: RefEntry): Step {
    match e
    case EnumError(err) => Stop(EntryError(err))
    case Entry(name, peeled) =>
      if name.Some? && RemotePrefix <= name.value && peeled.Some? then
        if peeled.value == head then Match(name.value)
        else
          match q(peeled.value, head)
          case Err(err) => Stop(AncestryError(err))
          case Ok(descends) => if descends then Match(name.value) else Skip
      else Skip
  }

  /** One iteration of the tag loop: exact equality only. */
  function TagStep(head: CommitId, e: RefEntry): Step {
    match e
    case EnumError(err) => Stop(EntryError(err))
    case Entry(name, peeled) =>
      if name.Some? && TagPrefix <= name.value && peeled == Some(head) then Match(name.value) else Skip
  }

  /** A loop over the enumeration that stops at the first entry that is not skipped. */
  function Scan(es: seq<RefEntry>, step: RefEntry -> Step): Step {
    if es == [] then Skip
    else if step(es[0]).Skip? then Scan(es[1..], step)
    else step(es[0])
  }

  function BranchScan(head: CommitId, q: AncestryQuery, es: seq<RefEntry>): Step {
    Scan(es, e => BranchStep(head, q, e))
  }

  function TagScan(head: CommitId, es: seq<RefEntry>): Step {
    Scan(es, e => TagStep(head, e))
  }

  /**
   * The intended result of `run` for an already resolved HEAD: the branch scan
   * (modes Branches and All), then, only if it found nothing, the tag scan
   * (modes Tags and All). Both scans read the same snapshot.
   */
  function Check(head: CommitId, only: Only, listing: Listing, q: AncestryQuery): (o: Outcome)
    ensures listing.ListFailed? ==> o == Failed(ListingError(listing.error))
    ensures listing == Listed([]) ==> o == NotPushed
    ensures o.Pushed? && o.kind == RemoteBranch ==> only != Tags
    ensures o.Pushed? && o.kind == Tag ==> only != Branches
  {
    match listing
    case ListFailed(err) => Failed(ListingError(err))
    case Listed(es) =>
      var branch := if only == Branches || only == All then BranchScan(head, q, es) else Skip;
      match branch
      case Stop(err) => Failed(err)
      case Match(n) => Pushed(RemoteBranch, n)
      case Skip =>
        if only == Tags || only == All then
          match TagScan(head, es)
          case Stop(err) => Failed(err)
          case Match(n) => Pushed(Tag, n)
          case Skip => NotPushed
        else NotPushed
  }

  /** The lines a run prints: one on success, none on an error. */
  function Report(head: CommitId, o: Outcome): (ms: seq<Message>)
    ensures |ms| == (if o.Failed? then 0 else 1)
    ensures forall m :: m in ms ==> m.head == head
    ensures o.NotPushed? ==> ms == [NotPushedToRemote(head)]
    ensures o.Pushed? ==>
      !ms[0].NotPushedToRemote? && ms[0].name == o.name && (ms[0].FoundInTag? <==> o.kind == Tag)
  {
    match o
    case Pushed(RemoteBranch, n) => [FoundInBranch(head, n)]
    case Pushed(Tag, n) => [FoundInTag(head, n)]
    case NotPushed => [NotPushedToRemote(head)]
    case Failed(_) => []
  }

  /** The process exit status `main` chooses. */
  function ExitCode(o: Outcome): (code: int)
    ensures code == 0 <==> o.Pushed?
    ensures code == 2 <==> o.NotPushed?
    ensures code == 1 <==> o.Failed?
  {
    match o
    case Pushed(_, _) => 0
    case NotPushed => 2
    case Failed(_) => 1
  }

  lemma {:induction false} ScanSkipsPrefix(es: seq<RefEntry>, step: RefEntry -> Step, i: nat)
    requires i <= |es|
    requires forall j :: 0 <= j < i ==> step(es[j]) == Skip
    ensures Scan(es, step) == Scan(es[i..], step)
  {
    if i > 0 {
      ScanSkipsPrefix(es[1..], step, i - 1);
      assert es[1..][i - 1..] == es[i..];
    }
  }

  /**
   * The body of `run`: a `pushed` flag, a branch loop and a tag loop that each
   * stop at the first match, and the final branch on the flag. `printed` is
   * what it writes to standard output.
   */
  method Run(head: CommitId, only: Only, listing: Listing, q: AncestryQuery)
    returns (outcome: Outcome, printed: seq<Message>)
    ensures outcome == Check(head, only, listing, q)
    ensures printed == Report(head, outcome)
  {
    printed := [];
    outcome := NotPushed;
    var pushed := false;

    if only == Branches || only == All {
      if listing.ListFailed? {
        return Failed(ListingError(listing.error)), printed;
      }
      var es := listing.entries;
      var i := 0;
      while i < |es|
        invariant 0 <= i <= |es|
        invariant forall j :: 0 <= j < i ==> BranchStep(head, q, es[j]) == Skip
        invariant !pushed && printed == []
      {
        ScanSkipsPrefix(es, e => BranchStep(head, q, e), i);
        var entry := es[i];
        if entry.EnumError? {
          return Failed(EntryError(entry.error)), printed;
        }
        if entry.name.Some? && RemotePrefix <= entry.name.value && entry.peeled.Some? {
          var name, tip := entry.name.value, entry.peeled.value;
          var matched := tip == head;
          if !matched {
            var descends := q(tip, head);
            if descends.Err? {
              return Failed(AncestryError(descends.error)), printed;
            }
            matched := descends.value;
          }
          if matched {
            printed := printed + [FoundInBranch(head, name)];
            outcome := Pushed(RemoteBranch, name);
            pushed := true;
            break;
          }
        }
        i := i + 1;
      }
      if !pushed {
        ScanSkipsPrefix(es, e => BranchStep(head, q, e), |es|);
      }
    }

    if !pushed && (only == Tags || only == All) {
      if listing.ListFailed? {
        return Failed(ListingError(listing.error)), printed;
      }
      var es := listing.entries;
      var i := 0;
      while i < |es|
        invariant 0 <= i <= |es|
        invariant forall j :: 0 <= j < i ==> TagStep(head, es[j]) == Skip
        invariant !pushed && printed == []
      {
        ScanSkipsPrefix(es, e => TagStep(head, e), i);
        var entry := es[i];
        if entry.EnumError? {
          return Failed(EntryError(entry.error)), printed;
        }
        if entry.name.Some? && TagPrefix <= entry.name.value {
          var name := entry.name.value;
          if entry.peeled.Some? && entry.peeled.value == head {
            printed := printed + [FoundInTag(head, name)];
            outcome := Pushed(Tag, name);
            pushed := true;
            break;
          }
        }
        i := i + 1;
      }
      if !pushed {
        ScanSkipsPrefix(es, e => TagStep(head, e), |es|);
      }
    }

    if !pushed {
      printed := printed + [NotPushedToRemote(head)];
      outcome := NotPushed;
    }
  }

  /** `main`: run the check and map its result to the exit status. */
  method Invoke(head: CommitId, only: Only, listing: Listing, q: AncestryQuery)
    returns (code: int, printed: seq<Message>)
    ensures code == ExitCode(Check(head, only, listing, q))
    ensures printed == Report(head, Check(head, only, listing, q))
  {
    var outcome;
    outcome, printed := Run(head, only, listing, q);
    code := ExitCode(outcome);
  }
}
