/** `migrate`: the walker instantiated with the four copy functions, and what
    a whole run promises about the destination store and its summary. */
module Migration {
  import opened Wrappers
  import opened Timestamps
  import opened Destination
  import opened Walk
  import opened Copying

  /** The copy functions, as the walker's copier. */
  function CopyOf(iso: IsoParser): Copier
  {
    (dryRun: bool, db: Db, v: Visit) => Copy(iso, dryRun, db, v)
  }

  /** The request of each visit, as the walker's issuer. */
  function IssueOf(iso: IsoParser): Issuer
  {
    (v: Visit) => Issue(iso, v)
  }

  /** `migrate`: users first, then every twin with its conversations and
      messages. A finished run has counted every document of the source. */
  function Migrate(iso: IsoParser, dryRun: bool, db: Db, src: Source): (o: Outcome)
    ensures o.Finished? ==>
              o.run.counts == Counts(|src.users|, |src.twins|, ConversationsUnder(src.twins), MessagesUnder(src.twins))
  {
    WalkAll(CopyOf(iso), dryRun, db, src)
  }

  lemma CopyRealisesIssue(iso: IsoParser)
    ensures Realises(CopyOf(iso), IssueOf(iso))
  {
    forall dryRun: bool, db: Db, v: Visit
      ensures var r := CopyOf(iso)(dryRun, db, v);
              var q := IssueOf(iso)(v);
        && (r.Success? <==> q.Success?)
        && (r.Failure? ==> r.error == q.error)
        && (r.Success? ==> q.value.Keyed() && r.value.db == (if dryRun then db else Apply(db, q.value)))
    {
      CopyCarriesOutIssue(iso, dryRun, db, v);
    }
  }

  /** The requests a migration issues, in visiting order, up to the first
      document that raises. */
  function Requests(iso: IsoParser, src: Source): (reqs: seq<Request>)
    ensures AllKeyed(reqs)
    ensures |reqs| <= |Flatten(src)|
    ensures forall i :: 0 <= i < |reqs| ==> Issue(iso, Flatten(src)[i]) == Success(reqs[i])
  {
    Issued(IssueOf(iso), Flatten(src))
  }

  /** A migration stops exactly at the first document whose copy raises,
      reporting that exception; a dry run leaves the store unchanged and a
      live run leaves it as the issued upserts, applied in order, make it. */
  lemma MigrateWrites(iso: IsoParser, dryRun: bool, db: Db, src: Source)
    ensures var o := Migrate(iso, dryRun, db, src);
            var reqs := Requests(iso, src);
      && (o.Finished? <==> |reqs| == |Flatten(src)|)
      && (o.Aborted? ==> |reqs| < |Flatten(src)| && o.error == Issue(iso, Flatten(src)[|reqs|]).error)
      && o.run.counts == Tally(NoCounts, Flatten(src)[..|reqs|])
      && o.run.db == (if dryRun then db else ApplyAll(db, reqs))
  {
    WalkAllIsReplay(CopyOf(iso), dryRun, db, src);
    CopyRealisesIssue(iso);
    ReplayByIssue(CopyOf(iso), IssueOf(iso), dryRun, Run(db, NoCounts), Flatten(src));
  }

  /** A dry run reports what a live run does: it finishes or aborts alike,
      with the same exception and the same summary, whatever either store
      holds, and it writes nothing. The store accepts every value, so a live
      upsert that fails to encode a document is outside this promise. */
  lemma DryRunMatchesLive(iso: IsoParser, dryDb: Db, liveDb: Db, src: Source)
    ensures var dry := Migrate(iso, true, dryDb, src);
            var live := Migrate(iso, false, liveDb, src);
      && dry.Finished? == live.Finished?
      && (dry.Aborted? ==> dry.error == live.error)
      && dry.run.counts == live.run.counts
      && dry.run.db == dryDb
  {
    MigrateWrites(iso, true, dryDb, src);
    MigrateWrites(iso, false, liveDb, src);
  }

  /** Running the migration again over its own result changes nothing: the
      rerun ends the same way, with the same summary and the same store. */
  lemma MigrateIdempotent(iso: IsoParser, db: Db, src: Source)
    ensures var once := Migrate(iso, false, db, src);
      Migrate(iso, false, once.run.db, src) == once
  {
    var once := Migrate(iso, false, db, src);
    var twice := Migrate(iso, false, once.run.db, src);
    MigrateWrites(iso, false, db, src);
    MigrateWrites(iso, false, once.run.db, src);
    ApplyAllIdempotent(db, Requests(iso, src));
    assert twice.run == once.run;
  }

  /** A live run killed after its first `n` upserts and started again from
      the beginning ends exactly as an uninterrupted run does: same outcome,
      same summary, same store. */
  lemma MigrateRestartConverges(iso: IsoParser, db: Db, src: Source, n: nat)
    requires n <= |Requests(iso, src)|
    ensures AllKeyed(Requests(iso, src)[..n])
    ensures Migrate(iso, false, ApplyAll(db, Requests(iso, src)[..n]), src) == Migrate(iso, false, db, src)
  {
    var reqs := Requests(iso, src);
    RestartConverges(db, reqs, n);
    var killed := ApplyAll(db, reqs[..n]);
    var resumed := Migrate(iso, false, killed, src);
    var whole := Migrate(iso, false, db, src);
    MigrateWrites(iso, false, killed, src);
    MigrateWrites(iso, false, db, src);
    assert resumed.run == whole.run;
  }

  /** User documents raise nothing the model covers, so the users loop always
      completes. */
  lemma UsersAlwaysCopied(iso: IsoParser, dryRun: bool, db: Db, src: Source)
    ensures var o := Migrate(iso, dryRun, db, src);
      && |src.users| <= |Requests(iso, src)|
      && o.run.counts.users == |src.users|
  {
    var reqs := Requests(iso, src);
    var vs := Flatten(src);
    MigrateWrites(iso, dryRun, db, src);
    assert Migrate(iso, dryRun, db, src).run.counts == Tally(NoCounts, vs[..|reqs|]);
    UsersIssued(iso, src);
    UsersComeFirst(src);
    TallyUsers(NoCounts, vs[..|reqs|], |src.users|);
  }

  /** Every user issues its upsert, so the issued requests cover the users. */
  lemma UsersIssued(iso: IsoParser, src: Source)
    ensures |src.users| <= |Requests(iso, src)|
  {
    UsersComeFirst(src);
  }

  /** Tallying a prefix whose first `n` visits are users and whose rest is
      not counts `n` users. */
  lemma {:induction false} TallyUsers(c: Counts, vs: seq<Visit>, n: nat)
    requires n <= |vs|
    requires forall i :: 0 <= i < |vs| ==> (vs[i].UserVisit? <==> i < n)
    ensures Tally(c, vs).users == c.users + n
    decreases |vs|
  {
    if vs != [] {
      if n > 0 {
        TallyUsers(Tick(c, vs[0]), vs[1..], n - 1);
      } else {
        TallyUsers(Tick(c, vs[0]), vs[1..], 0);
      }
    }
  }
}
