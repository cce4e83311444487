/**
 The updater of the router (pkg/core/router.go) by itself, while no reader holds the lock: what `Update` and `Download`
 come to, and that this is a run of the interleaved machine.
 */
module Updater {
  import opened Bytes
  import opened RouterProtocol

  // ----- Runs

  function GateRun(g: Gate, acts: seq<Action>): Option<Gate> {
    if acts == [] then Some(g)
    else
      match GateRun(g, acts[..|acts| - 1])
      case Some(g') => DoGate(g', false, acts[|acts| - 1])
      case None => None
  }

  lemma GateThen(g: Gate, acts: seq<Action>, mid: Gate, a: Action, g': Gate)
    requires GateRun(g, acts) == Some(mid) && DoGate(mid, false, a) == Some(g')
    ensures GateRun(g, acts + [a]) == Some(g')
  {
    assert (acts + [a])[..|acts|] == acts;
  }

  lemma {:induction false} GateAppend(g: Gate, a: seq<Action>, mid: Gate, b: seq<Action>)
    requires GateRun(g, a) == Some(mid)
    ensures GateRun(g, a + b) == GateRun(mid, b)
    decreases |b|
  {
    if b == [] {
      assert a + b == a;
    } else {
      GateAppend(g, a, mid, b[..|b| - 1]);
      assert (a + b)[..|a + b| - 1] == a + b[..|b| - 1];
    }
  }

  predicate UpdaterOnly(acts: seq<Action>) {
    forall a | a in acts :: ByUpdater(a)
  }

  /** A run of the updater alone is a run of the router, whatever its threads have come to. */
  lemma {:induction false} UpdaterRuns(w: World, s: State, acts: seq<Action>, g: Gate) returns (s': State)
    requires s.readers == {} && GateRun(s.gate, acts) == Some(g) && Current(s) in s.configs
    ensures Exec(w, s, acts) == Next(s') && s' == s.(gate := g, configs := s'.configs)
    ensures Current(s') in s'.configs && UpdaterOnly(acts)
    decreases |acts|
  {
    if acts == [] {
      s' := s;
    } else {
      var acts', a := acts[..|acts| - 1], acts[|acts| - 1];
      var before := UpdaterRuns(w, s, acts', GateRun(s.gate, acts').value);
      assert ByUpdater(a);
      s' := Do(w, before, a).s;
      UpdaterFrame(w, before, a);
    }
  }

  const OK := Update(true)

  /** A download begins, with `SwitchOff` first of all. */
  lemma SwitchesOff(g: Gate) returns (acts: seq<Action>)
    requires g.updater.Resting? && !g.writer
    ensures GateRun(g, acts) == Some(g.(on := false, updater := Fetching, rounds := g.rounds + 1))
  {
    var g1 := g.(updater := OffLock, rounds := g.rounds + 1);
    GateThen(g, [], g, OK, g1);
    var g2 := g1.(writer := true, updater := OffHeld);
    GateThen(g, [] + [OK], g1, OK, g2);
    var g3 := g2.(on := false, updater := OffWritten);
    GateThen(g, [] + [OK] + [OK], g2, OK, g3);
    GateThen(g, [] + [OK] + [OK] + [OK], g3, OK, g3.(writer := false, updater := Fetching));
    acts := [] + [OK] + [OK] + [OK] + [OK];
  }

  lemma TurnsOff(g: Gate) returns (acts: seq<Action>)
    requires g.updater.Resting? && !g.writer
    ensures GateRun(g, acts) == Some(g.(on := false, updater := Walking, rounds := g.rounds + 1))
  {
    var off := SwitchesOff(g);
    var off' := g.(on := false, updater := Fetching, rounds := g.rounds + 1);
    GateThen(g, off, off', OK, off'.(updater := Walking));
    acts := off + [OK];
  }

  /** The archive's database entry replaces the file; an open database is closed first. */
  lemma Rewrites(g: Gate) returns (acts: seq<Action>, g': Gate)
    requires g.updater.Walking?
    ensures GateRun(g, acts) == Some(g') && g' == g.(mapped := g'.mapped, whole := true, updater := Opening)
  {
    var met := g.(updater := if g.db.Some? then Closing else Creating);
    GateThen(g, [], g, Entry, met);
    var close := if g.db.Some? then [OK] else [];
    var mapped := if g.db.Some? then g.mapped - {g.db.value} else g.mapped;
    var closed := g.(mapped := mapped, updater := Creating);
    if g.db.Some? {
      GateThen(g, [] + [Entry], met, OK, closed);
    }
    var before := [] + [Entry] + close;
    assert close == [] ==> before == [] + [Entry];
    var g1 := closed.(whole := false, updater := Copying);
    GateThen(g, before, closed, OK, g1);
    var g2 := g1.(whole := true, updater := Walking);
    GateThen(g, before + [OK], g1, OK, g2);
    g' := g2.(updater := Opening);
    GateThen(g, before + [OK] + [OK], g2, OK, g');
    acts := before + [OK] + [OK] + [OK];
  }

  /** The new file is opened, the pointer replaced, and `SwitchOn` called. */
  lemma Publishes(g: Gate) returns (acts: seq<Action>)
    requires g.updater.Opening? && !g.writer && g.whole
    ensures GateRun(g, acts) ==
            Some(g.(on := true, db := Some(g.nextDb), mapped := g.mapped + {g.nextDb}, nextDb := g.nextDb + 1,
                    updater := Resting))
  {
    var g1 := g.(db := Some(g.nextDb), mapped := g.mapped + {g.nextDb}, nextDb := g.nextDb + 1, updater := OnLock);
    GateThen(g, [], g, OK, g1);
    var g2 := g1.(writer := true, updater := OnHeld);
    GateThen(g, [] + [OK], g1, OK, g2);
    var g3 := g2.(on := true, updater := OnWritten);
    GateThen(g, [] + [OK] + [OK], g2, OK, g3);
    GateThen(g, [] + [OK] + [OK] + [OK], g3, OK, g3.(writer := false, updater := Resting));
    acts := [] + [OK] + [OK] + [OK] + [OK];
  }

  lemma TurnsOn(g: Gate) returns (acts: seq<Action>, g': Gate)
    requires g.updater.Walking? && !g.writer
    ensures GateRun(g, acts) == Some(g') && g'.updater.Resting? && !g'.writer && g'.on && Ready(g')
    ensures g'.db == Some(g.nextDb) && g'.nextDb == g.nextDb + 1 && g'.rounds == g.rounds
  {
    var rewrite, g1 := Rewrites(g);
    var publish := Publishes(g1);
    GateAppend(g, rewrite, g1, publish);
    acts := rewrite + publish;
    g' := GateRun(g, acts).value;
  }

  /** `k` downloads, each of which publishes the next database. */
  lemma {:induction false} Updates(g: Gate, k: nat) returns (acts: seq<Action>, g': Gate)
    requires g.updater.Resting? && !g.writer
    ensures GateRun(g, acts) == Some(g') && g'.updater.Resting? && !g'.writer
    ensures g'.nextDb == g.nextDb + k && g'.rounds == g.rounds + k
    decreases k
  {
    if k == 0 {
      acts, g' := [], g;
    } else {
      var before, g1 := Updates(g, k - 1);
      var off := TurnsOff(g1);
      var g2 := GateRun(g1, off).value;
      var on;
      on, g' := TurnsOn(g2);
      GateAppend(g1, off, g2, on);
      GateAppend(g, before, g1, off + on);
      acts := before + (off + on);
    }
  }

  // ----- The download as a whole

  /** What happens at one database entry of the archive, and in a whole download. */
  datatype Replacing = Replacing(closes: bool, creates: bool, copies: bool)

  datatype Downloading = Downloading(fetched: bool, entries: seq<Replacing>, walked: bool, opens: bool)

  predicate Succeeds(e: Replacing) {
    e.creates && e.copies
  }

  /** The database is closed, though a failure to close it is ignored, and the file written over. */
  function Replaced(g: Gate, e: Replacing): Gate {
    g.(mapped := if e.closes && g.db.Some? then g.mapped - {g.db.value} else g.mapped,
       whole := if e.creates then e.copies else g.whole)
  }

  /** The walk ends at the first entry that fails. */
  function Walked(g: Gate, entries: seq<Replacing>): Gate {
    if entries == [] then g
    else
      var before := entries[..|entries| - 1];
      var g' := Walked(g, before);
      if AllSucceed(before) then Replaced(g', entries[|entries| - 1]) else g'
  }

  predicate AllSucceed(entries: seq<Replacing>) {
    forall e | e in entries :: Succeeds(e)
  }

  /** From the fetched archive on; a broken file does not open. */
  function Installed(g: Gate, d: Downloading): Gate {
    var walked := Walked(g, d.entries);
    if !AllSucceed(d.entries) || !d.walked then walked
    else if !d.opens || !walked.whole then walked.(db := None)
    else walked.(on := true, db := Some(walked.nextDb), mapped := walked.mapped + {walked.nextDb},
                 nextDb := walked.nextDb + 1)
  }

  /** The router and its database after a download that nobody interferes with. */
  function Downloaded(g: Gate, d: Downloading): Gate {
    if d.fetched then Installed(g.(on := false), d) else g.(on := false)
  }

  lemma EntryRuns(g: Gate, e: Replacing) returns (acts: seq<Action>)
    requires g.updater.Walking?
    ensures GateRun(g, acts) == Some(Replaced(g, e).(updater := if Succeeds(e) then Walking else Resting))
  {
    var met := g.(updater := if g.db.Some? then Closing else Creating);
    GateThen(g, [], g, Entry, met);
    acts := [] + [Entry];
    var closed := g.(mapped := Replaced(g, e).mapped, updater := Creating);
    if g.db.Some? {
      GateThen(g, acts, met, Update(e.closes), closed);
      acts := acts + [Update(e.closes)];
    }
    if e.creates {
      var created := closed.(whole := false, updater := Copying);
      GateThen(g, acts, closed, Update(true), created);
      acts := acts + [Update(true)];
      GateThen(g, acts, created, Update(e.copies),
               created.(whole := e.copies, updater := if e.copies then Walking else Resting));
      acts := acts + [Update(e.copies)];
    } else {
      GateThen(g, acts, closed, Update(false), closed.(updater := Resting));
      acts := acts + [Update(false)];
    }
  }

  lemma {:induction false} WalkRuns(g: Gate, entries: seq<Replacing>) returns (acts: seq<Action>)
    requires g.updater.Walking?
    ensures GateRun(g, acts) == Some(Walked(g, entries).(updater := if AllSucceed(entries) then Walking else Resting))
    decreases |entries|
  {
    if entries == [] {
      acts := [];
    } else {
      var before, last := entries[..|entries| - 1], entries[|entries| - 1];
      assert entries == before + [last];
      acts := WalkRuns(g, before);
      if AllSucceed(before) {
        var g' := Walked(g, before).(updater := Walking);
        var more := EntryRuns(g', last);
        GateAppend(g, acts, g', more);
        acts := acts + more;
      }
    }
  }

  lemma OpensOrNot(g: Gate, opens: bool) returns (acts: seq<Action>)
    requires g.updater.Opening? && !g.writer && !g.on
    ensures GateRun(g, acts) ==
            Some(if opens && g.whole
                 then g.(on := true, db := Some(g.nextDb), mapped := g.mapped + {g.nextDb}, nextDb := g.nextDb + 1,
                         updater := Resting)
                 else g.(db := None, updater := Resting))
  {
    if opens && g.whole {
      acts := Publishes(g);
    } else {
      GateThen(g, [], g, Update(false), g.(db := None, updater := Resting));
      acts := [] + [Update(false)];
    }
  }

  /** The walk looks neither at the updater's place nor at the count of updates, and leaves the flag and pointer. */
  lemma {:induction false} WalkFrame(g: Gate, entries: seq<Replacing>, pc: UpdaterPc, n: nat)
    ensures Walked(g.(updater := pc, rounds := n), entries) == Walked(g, entries).(updater := pc, rounds := n)
    ensures Walked(g, entries) == g.(mapped := Walked(g, entries).mapped, whole := Walked(g, entries).whole)
    decreases |entries|
  {
    if entries != [] {
      WalkFrame(g, entries[..|entries| - 1], pc, n);
    }
  }

  lemma InstallRuns(g: Gate, d: Downloading) returns (acts: seq<Action>)
    requires g.updater.Walking? && !g.writer && !g.on
    ensures GateRun(g, acts) == Some(Installed(g, d).(updater := Resting))
  {
    WalkFrame(g, d.entries, Walking, g.rounds);
    acts := WalkRuns(g, d.entries);
    if AllSucceed(d.entries) {
      var walked := Walked(g, d.entries);
      var next := walked.(updater := if d.walked then Opening else Resting);
      GateThen(g, acts, walked, Update(d.walked), next);
      acts := acts + [Update(d.walked)];
      if d.walked {
        var last := OpensOrNot(next, d.opens);
        GateAppend(g, acts, next, last);
        acts := acts + last;
      }
    }
  }

  lemma FetchRuns(g: Gate, fetched: bool) returns (acts: seq<Action>)
    requires g.updater.Resting? && !g.writer
    ensures GateRun(g, acts) ==
            Some(g.(on := false, updater := if fetched then Walking else Resting, rounds := g.rounds + 1))
  {
    acts := SwitchesOff(g);
    var off := g.(on := false, updater := Fetching, rounds := g.rounds + 1);
    GateThen(g, acts, off, Update(fetched), off.(updater := if fetched then Walking else Resting));
    acts := acts + [Update(fetched)];
  }

  lemma InstalledFrame(g: Gate, d: Downloading, pc: UpdaterPc, n: nat)
    ensures Installed(g.(updater := pc, rounds := n), d) == Installed(g, d).(updater := pc, rounds := n)
    ensures Installed(g, d).updater == g.updater
  {
    WalkFrame(g, d.entries, pc, n);
  }

  /** A download that nobody interferes with is one round of the updater. */
  lemma DownloadRuns(g: Gate, d: Downloading) returns (acts: seq<Action>)
    requires g.updater.Resting? && !g.writer
    ensures GateRun(g, acts) == Some(Downloaded(g, d).(rounds := g.rounds + 1))
  {
    acts := FetchRuns(g, d.fetched);
    if d.fetched {
      var off := g.(on := false);
      var fetched := off.(updater := Walking, rounds := g.rounds + 1);
      var install := InstallRuns(fetched, d);
      GateAppend(g, acts, fetched, install);
      acts := acts + install;
      InstalledFrame(off, d, Walking, g.rounds + 1);
    }
  }
}
