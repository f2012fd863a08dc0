/**
 * What the check promises, stated over `PushCheck.Check` without reference to
 * how the scans are written: which reference is reported, which entries and
 * which queries can influence the result, and when a failure is fatal.
 */
module PushCheckProperties {
  import opened Wrappers
  import opened PushCheck

  // ---------------------------------------------------------------------------
  // Declarative reading of one entry

  /** A remote branch that shows HEAD is pushed: its tip is HEAD, or the query says it descends from HEAD. */
  predicate BranchHit(head: CommitId, q: AncestryQuery, e: RefEntry) {
    InNamespace(e, RemotePrefix) && e.peeled.Some? &&
    (e.peeled.value == head || q(e.peeled.value, head) == Ok(true))
  }

  /** The branch loop goes past this entry: no enumeration error, no hit, no failed query. */
  predicate BranchPasses(head: CommitId, q: AncestryQuery, e: RefEntry) {
    e.Entry? &&
    !(InNamespace(e, RemotePrefix) && e.peeled.Some? &&
      (e.peeled.value == head || q(e.peeled.value, head) != Ok(false)))
  }

  /** A tag that shows HEAD is pushed: it peels to HEAD itself. */
  predicate TagHit(head: CommitId, e: RefEntry) {
    InNamespace(e, TagPrefix) && e.peeled == Some(head)
  }

  /** The tag loop goes past this entry. */
  predicate TagPasses(head: CommitId, e: RefEntry) {
    e.Entry? && !TagHit(head, e)
  }

  lemma BranchStepMeaning(head: CommitId, q: AncestryQuery, e: RefEntry)
    ensures BranchStep(head, q, e) == Skip <==> BranchPasses(head, q, e)
    ensures BranchStep(head, q, e).Match? <==> BranchHit(head, q, e)
    ensures BranchStep(head, q, e).Match? ==> BranchStep(head, q, e).name == e.name.value
  {
  }

  lemma TagStepMeaning(head: CommitId, e: RefEntry)
    ensures TagStep(head, e) == Skip <==> TagPasses(head, e)
    ensures TagStep(head, e).Match? <==> TagHit(head, e)
    ensures TagStep(head, e).Match? ==> TagStep(head, e).name == e.name.value
  {
  }

  // ---------------------------------------------------------------------------
  // The scan: first entry that is not skipped

  /** The scan returns the step of the first entry that is not skipped. */
  lemma {:induction false} ScanFindsFirst(es: seq<RefEntry>, step: RefEntry -> Step, i: nat)
    requires i < |es|
    requires forall j :: 0 <= j < i ==> step(es[j]) == Skip
    requires step(es[i]) != Skip
    ensures Scan(es, step) == step(es[i])
  {
    if i > 0 {
      ScanFindsFirst(es[1..], step, i - 1);
    }
  }

  /** The scan finds nothing exactly when every entry is skipped. */
  lemma {:induction false} ScanSkipIff(es: seq<RefEntry>, step: RefEntry -> Step)
    ensures Scan(es, step) == Skip <==> forall j :: 0 <= j < |es| ==> step(es[j]) == Skip
  {
    if es != [] {
      ScanSkipIff(es[1..], step);
      if step(es[0]) == Skip {
        forall j | 0 < j < |es| ensures step(es[j]) == step(es[1..][j - 1]) { }
      }
    }
  }

  /** A result other than Skip comes from the first entry that is not skipped. */
  lemma {:induction false} ScanWitness(es: seq<RefEntry>, step: RefEntry -> Step)
    requires Scan(es, step) != Skip
    ensures exists i :: 0 <= i < |es| && (forall j :: 0 <= j < i ==> step(es[j]) == Skip) && step(es[i]) == Scan(es, step)
  {
    if step(es[0]) == Skip {
      ScanWitness(es[1..], step);
      var i :| 0 <= i < |es[1..]| && (forall j :: 0 <= j < i ==> step(es[1..][j]) == Skip) && step(es[1..][i]) == Scan(es[1..], step);
      assert step(es[i + 1]) == Scan(es, step);
      assert forall j :: 0 <= j < i + 1 ==> step(es[j]) == Skip by {
        forall j | 0 < j < i + 1 ensures step(es[j]) == Skip {
          assert es[j] == es[1..][j - 1];
        }
      }
    } else {
      assert step(es[0]) == Scan(es, step);
    }
  }

  /** Entries after the first one that stops the scan are never looked at. */
  lemma {:induction false} ScanAppend(es: seq<RefEntry>, rest: seq<RefEntry>, step: RefEntry -> Step)
    ensures Scan(es + rest, step) == if Scan(es, step) == Skip then Scan(rest, step) else Scan(es, step)
  {
    if es != [] {
      assert (es + rest)[1..] == es[1..] + rest;
      ScanAppend(es[1..], rest, step);
    } else {
      assert es + rest == rest;
    }
  }

  /** Two scans that see the same step at every position agree. */
  lemma {:induction false} ScanAgree(es1: seq<RefEntry>, es2: seq<RefEntry>, s1: RefEntry -> Step, s2: RefEntry -> Step)
    requires |es1| == |es2|
    requires forall j :: 0 <= j < |es1| ==> s1(es1[j]) == s2(es2[j])
    ensures Scan(es1, s1) == Scan(es2, s2)
  {
    if es1 != [] {
      ScanAgree(es1[1..], es2[1..], s1, s2);
    }
  }

  // ---------------------------------------------------------------------------
  // The two scans, read declaratively

  /** The branch scan passes over the whole snapshot exactly when every entry passes. */
  lemma BranchScanSkipIff(head: CommitId, q: AncestryQuery, es: seq<RefEntry>)
    ensures BranchScan(head, q, es) == Skip <==> forall j :: 0 <= j < |es| ==> BranchPasses(head, q, es[j])
  {
    var step := e => BranchStep(head, q, e);
    forall e ensures step(e) == Skip <==> BranchPasses(head, q, e) { BranchStepMeaning(head, q, e); }
    ScanSkipIff(es, step);
  }

  /** The branch scan matches `n` exactly when the first entry it does not pass is a hit named `n`. */
  lemma BranchScanMatchIff(head: CommitId, q: AncestryQuery, es: seq<RefEntry>, n: string)
    ensures BranchScan(head, q, es) == Match(n) <==>
      exists i :: 0 <= i < |es| && BranchHit(head, q, es[i]) && es[i].name.value == n &&
        forall j :: 0 <= j < i ==> BranchPasses(head, q, es[j])
  {
    var step := e => BranchStep(head, q, e);
    forall e ensures step(e) == BranchStep(head, q, e) { BranchStepMeaning(head, q, e); }
    if exists i :: 0 <= i < |es| && BranchHit(head, q, es[i]) && es[i].name.value == n &&
         forall j :: 0 <= j < i ==> BranchPasses(head, q, es[j]) {
      var i :| 0 <= i < |es| && BranchHit(head, q, es[i]) && es[i].name.value == n &&
         forall j :: 0 <= j < i ==> BranchPasses(head, q, es[j]);
      ScanFindsFirst(es, step, i);
    }
    if BranchScan(head, q, es) == Match(n) {
      ScanWitness(es, step);
    }
  }

  /** The tag scan passes over the whole snapshot exactly when every entry passes. */
  lemma TagScanSkipIff(head: CommitId, es: seq<RefEntry>)
    ensures TagScan(head, es) == Skip <==> forall j :: 0 <= j < |es| ==> TagPasses(head, es[j])
  {
    var step := e => TagStep(head, e);
    forall e ensures step(e) == Skip <==> TagPasses(head, e) { TagStepMeaning(head, e); }
    ScanSkipIff(es, step);
  }

  /** The tag scan matches `n` exactly when the first entry it does not pass is an exact tag named `n`. */
  lemma TagScanMatchIff(head: CommitId, es: seq<RefEntry>, n: string)
    ensures TagScan(head, es) == Match(n) <==>
      exists i :: 0 <= i < |es| && TagHit(head, es[i]) && es[i].name.value == n &&
        forall j :: 0 <= j < i ==> TagPasses(head, es[j])
  {
    var step := e => TagStep(head, e);
    forall e ensures step(e) == TagStep(head, e) { TagStepMeaning(head, e); }
    if exists i :: 0 <= i < |es| && TagHit(head, es[i]) && es[i].name.value == n &&
         forall j :: 0 <= j < i ==> TagPasses(head, es[j]) {
      var i :| 0 <= i < |es| && TagHit(head, es[i]) && es[i].name.value == n &&
         forall j :: 0 <= j < i ==> TagPasses(head, es[j]);
      ScanFindsFirst(es, step, i);
    }
    if TagScan(head, es) == Match(n) {
      ScanWitness(es, step);
    }
  }

  // ---------------------------------------------------------------------------
  // Which reference is reported

  /**
   * Branch match: the result names a remote branch exactly when the mode is
   * Branches or All and some remote branch peels to HEAD or to a descendant of
   * HEAD, with every entry before it passed over; the name is that entry's.
   */
  lemma BranchPushedIff(head: CommitId, only: Only, es: seq<RefEntry>, q: AncestryQuery, n: string)
    ensures Check(head, only, Listed(es), q) == Pushed(RemoteBranch, n) <==>
      only != Tags &&
      exists i :: 0 <= i < |es| && BranchHit(head, q, es[i]) && es[i].name.value == n &&
        forall j :: 0 <= j < i ==> BranchPasses(head, q, es[j])
  {
    BranchScanMatchIff(head, q, es, n);
  }

  /**
   * Tags use equality only: the result names a tag exactly when the mode
   * allows tags, the branch scan (mode All) passed every entry, and some tag
   * peels to HEAD itself with every entry before it passed over.
   */
  lemma TagPushedIff(head: CommitId, only: Only, es: seq<RefEntry>, q: AncestryQuery, n: string)
    ensures Check(head, only, Listed(es), q) == Pushed(Tag, n) <==>
      only != Branches &&
      (only == All ==> forall j :: 0 <= j < |es| ==> BranchPasses(head, q, es[j])) &&
      exists i :: 0 <= i < |es| && TagHit(head, es[i]) && es[i].name.value == n &&
        forall j :: 0 <= j < i ==> TagPasses(head, es[j])
  {
    BranchScanSkipIff(head, q, es);
    TagScanMatchIff(head, es, n);
  }

  /** A tag that only descends from HEAD never makes HEAD pushed: without an exact tag, no tag is reported. */
  lemma DescendantTagNeverPushes(head: CommitId, only: Only, es: seq<RefEntry>, q: AncestryQuery)
    requires forall i :: 0 <= i < |es| ==> !TagHit(head, es[i])
    ensures !Check(head, only, Listed(es), q).Pushed? || Check(head, only, Listed(es), q).kind == RemoteBranch
  {
    var o := Check(head, only, Listed(es), q);
    if o.Pushed? && o.kind == Tag {
      TagPushedIff(head, only, es, q, o.name);
    }
  }

  /** The result is `NotPushed` exactly when every scan the mode selects passes every entry. */
  lemma NotPushedIff(head: CommitId, only: Only, es: seq<RefEntry>, q: AncestryQuery)
    ensures Check(head, only, Listed(es), q) == NotPushed <==>
      (only != Tags ==> forall j :: 0 <= j < |es| ==> BranchPasses(head, q, es[j])) &&
      (only != Branches ==> forall j :: 0 <= j < |es| ==> TagPasses(head, es[j]))
  {
    BranchScanSkipIff(head, q, es);
    TagScanSkipIff(head, es);
  }

  // ---------------------------------------------------------------------------
  // Fatal errors, only before a match

  /**
   * In the branch scan, an enumeration error or a failed ancestry query at an
   * entry that every earlier entry passed is the result of the whole run.
   */
  lemma BranchErrorBeforeMatchIsFatal(head: CommitId, only: Only, es: seq<RefEntry>, q: AncestryQuery, i: nat)
    requires only != Tags && i < |es|
    requires forall j :: 0 <= j < i ==> BranchPasses(head, q, es[j])
    requires es[i].EnumError? ||
      (InNamespace(es[i], RemotePrefix) && es[i].peeled.Some? && es[i].peeled.value != head &&
       q(es[i].peeled.value, head).Err?)
    ensures es[i].EnumError? ==> Check(head, only, Listed(es), q) == Failed(EntryError(es[i].error))
    ensures es[i].Entry? ==> Check(head, only, Listed(es), q) == Failed(AncestryError(q(es[i].peeled.value, head).error))
  {
    var step := e => BranchStep(head, q, e);
    forall e ensures step(e) == Skip <==> BranchPasses(head, q, e) { BranchStepMeaning(head, q, e); }
    ScanFindsFirst(es, step, i);
  }

  /** In mode Tags, an enumeration error reached before any exact tag is fatal. */
  lemma TagErrorBeforeMatchIsFatal(head: CommitId, es: seq<RefEntry>, q: AncestryQuery, i: nat)
    requires i < |es| && es[i].EnumError?
    requires forall j :: 0 <= j < i ==> TagPasses(head, es[j])
    ensures Check(head, Tags, Listed(es), q) == Failed(EntryError(es[i].error))
  {
    var tstep := e => TagStep(head, e);
    forall e ensures tstep(e) == Skip <==> TagPasses(head, e) { TagStepMeaning(head, e); }
    ScanFindsFirst(es, tstep, i);
  }

  /**
   * With one snapshot for both scans, the tag scan of mode All cannot fail:
   * a branch scan that passed every entry met no enumeration error, so the tag
   * scan meets none either and, having no query, can only match or pass.
   */
  lemma AllModeTagScanCannotFail(head: CommitId, es: seq<RefEntry>, q: AncestryQuery)
    requires BranchScan(head, q, es) == Skip
    ensures !TagScan(head, es).Stop?
    ensures !Check(head, All, Listed(es), q).Failed?
  {
    BranchScanSkipIff(head, q, es);
    var tstep := e => TagStep(head, e);
    if TagScan(head, es) != Skip {
      ScanWitness(es, tstep);
      var i :| 0 <= i < |es| && (forall j :: 0 <= j < i ==> tstep(es[j]) == Skip) && tstep(es[i]) == TagScan(head, es);
      assert es[i].Entry? by { assert BranchPasses(head, q, es[i]); }
    }
  }

  /** Once a remote branch matches, nothing enumerated after it (errors included) changes the result. */
  lemma BranchMatchIgnoresLaterEntries(head: CommitId, only: Only, es: seq<RefEntry>, rest: seq<RefEntry>, q: AncestryQuery)
    requires Check(head, only, Listed(es), q).Pushed? && Check(head, only, Listed(es), q).kind == RemoteBranch
    ensures Check(head, only, Listed(es + rest), q) == Check(head, only, Listed(es), q)
  {
    ScanAppend(es, rest, e => BranchStep(head, q, e));
  }

  /** In mode Tags, once a tag matches, nothing enumerated after it changes the result. */
  lemma TagMatchIgnoresLaterEntries(head: CommitId, es: seq<RefEntry>, rest: seq<RefEntry>, q: AncestryQuery)
    requires Check(head, Tags, Listed(es), q).Pushed?
    ensures Check(head, Tags, Listed(es + rest), q) == Check(head, Tags, Listed(es), q)
  {
    ScanAppend(es, rest, e => TagStep(head, e));
  }

  // ---------------------------------------------------------------------------
  // Which entries and which queries can influence the result

  /** `a` and `b` differ at most in entries that lie in namespace `prefix` on both sides. */
  predicate AgreeOutside(a: seq<RefEntry>, b: seq<RefEntry>, prefix: string) {
    |a| == |b| &&
    forall i :: 0 <= i < |a| ==> a[i] == b[i] || (InNamespace(a[i], prefix) && InNamespace(b[i], prefix))
  }

  /** No name lies in both namespaces: they differ at their sixth character. */
  lemma NamespacesDisjoint(e: RefEntry)
    ensures InNamespace(e, TagPrefix) ==> !InNamespace(e, RemotePrefix)
  {
    if InNamespace(e, TagPrefix) {
      assert e.name.value[5] == TagPrefix[5];
    }
  }

  /** Mode Branches never examines tags: changing the tag references does not change its result. */
  lemma BranchesIgnoresTags(head: CommitId, es1: seq<RefEntry>, es2: seq<RefEntry>, q: AncestryQuery)
    requires AgreeOutside(es1, es2, TagPrefix)
    ensures Check(head, Branches, Listed(es1), q) == Check(head, Branches, Listed(es2), q)
  {
    forall j | 0 <= j < |es1| ensures BranchStep(head, q, es1[j]) == BranchStep(head, q, es2[j]) {
      NamespacesDisjoint(es1[j]);
      NamespacesDisjoint(es2[j]);
    }
    ScanAgree(es1, es2, e => BranchStep(head, q, e), e => BranchStep(head, q, e));
  }

  /**
   * Mode Tags never examines remote branches and never asks the ancestry
   * query: neither the remote references nor the query change its result.
   */
  lemma TagsIgnoresBranchesAndQuery(head: CommitId, es1: seq<RefEntry>, es2: seq<RefEntry>, q1: AncestryQuery, q2: AncestryQuery)
    requires AgreeOutside(es1, es2, RemotePrefix)
    ensures Check(head, Tags, Listed(es1), q1) == Check(head, Tags, Listed(es2), q2)
  {
    forall j | 0 <= j < |es1| ensures TagStep(head, es1[j]) == TagStep(head, es2[j]) {
      NamespacesDisjoint(es1[j]);
      NamespacesDisjoint(es2[j]);
    }
    ScanAgree(es1, es2, e => TagStep(head, e), e => TagStep(head, e));
  }

  /**
   * Equality is checked first: the query is never asked whether HEAD descends
   * from itself, so two queries that differ only there give the same result.
   */
  lemma EqualTipNeverQueried(head: CommitId, only: Only, listing: Listing, q1: AncestryQuery, q2: AncestryQuery)
    requires forall t :: t != head ==> q1(t, head) == q2(t, head)
    ensures Check(head, only, listing, q1) == Check(head, only, listing, q2)
  {
    if listing.Listed? {
      var es := listing.entries;
      ScanAgree(es, es, e => BranchStep(head, q1, e), e => BranchStep(head, q2, e));
    }
  }

  /**
   * Silent skips: an entry without a readable name, without a commit to peel
   * to, or outside both namespaces can be removed without changing the result.
   */
  lemma SkippedEntryIrrelevant(head: CommitId, only: Only, es: seq<RefEntry>, q: AncestryQuery, i: nat)
    requires i < |es| && es[i].Entry?
    requires es[i].name.None? || es[i].peeled.None? ||
      (!InNamespace(es[i], RemotePrefix) && !InNamespace(es[i], TagPrefix))
    ensures Check(head, only, Listed(es[..i] + es[i + 1..]), q) == Check(head, only, Listed(es), q)
  {
    var bstep := e => BranchStep(head, q, e);
    var tstep := e => TagStep(head, e);
    assert es == es[..i] + ([es[i]] + es[i + 1..]);
    ScanAppend(es[..i], [es[i]] + es[i + 1..], bstep);
    ScanAppend(es[..i], es[i + 1..], bstep);
    ScanAppend(es[..i], [es[i]] + es[i + 1..], tstep);
    ScanAppend(es[..i], es[i + 1..], tstep);
    assert Scan([es[i]] + es[i + 1..], bstep) == Scan(es[i + 1..], bstep);
    assert Scan([es[i]] + es[i + 1..], tstep) == Scan(es[i + 1..], tstep);
  }

  // ---------------------------------------------------------------------------
  // Exit status and output

  /**
   * `main`'s status is 0 when pushed, 2 when not pushed and 1 on an error, and
   * a successful run prints exactly one line: the branch, the tag, or "NOT pushed".
   */
  lemma ExitStatusAndOutput(head: CommitId, only: Only, listing: Listing, q: AncestryQuery)
    ensures var o := Check(head, only, listing, q);
      (ExitCode(o) == 0 <==> |Report(head, o)| == 1 && !Report(head, o)[0].NotPushedToRemote?) &&
      (ExitCode(o) == 2 <==> Report(head, o) == [NotPushedToRemote(head)]) &&
      (ExitCode(o) == 1 <==> Report(head, o) == [])
  {
  }

  // ---------------------------------------------------------------------------
  // Scenarios (c1 is HEAD; c3 strictly descends from c1)

  lemma ScenarioBranchAtHead(c1: CommitId, q: AncestryQuery)
    ensures Check(c1, Branches, Listed([Entry(Some("refs/remotes/origin/main"), Some(c1))]), q)
      == Pushed(RemoteBranch, "refs/remotes/origin/main")
  {
  }

  lemma ScenarioBranchAhead(c1: CommitId, c3: CommitId, q: AncestryQuery)
    requires c3 != c1 && q(c3, c1) == Ok(true)
    ensures Check(c1, All, Listed([Entry(Some("refs/remotes/origin/main"), Some(c3))]), q)
      == Pushed(RemoteBranch, "refs/remotes/origin/main")
  {
  }

  lemma ScenarioTagAhead(c1: CommitId, c3: CommitId, q: AncestryQuery)
    requires c3 != c1 && q(c3, c1) == Ok(true)
    ensures Check(c1, Tags, Listed([Entry(Some("refs/tags/v1.0"), Some(c3))]), q) == NotPushed
  {
    var es := [Entry(Some("refs/tags/v1.0"), Some(c3))];
    NotPushedIff(c1, Tags, es, q);
  }

  lemma ScenarioTagAtHead(c1: CommitId, q: AncestryQuery)
    ensures Check(c1, All, Listed([Entry(Some("refs/tags/v1.0"), Some(c1))]), q) == Pushed(Tag, "refs/tags/v1.0")
  {
    var es := [Entry(Some("refs/tags/v1.0"), Some(c1))];
    NamespacesDisjoint(es[0]);
    assert TagHit(c1, es[0]);
    TagPushedIff(c1, All, es, q, "refs/tags/v1.0");
  }
}
