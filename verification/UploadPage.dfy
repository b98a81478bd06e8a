/** The upload in the form the browser runs it: calls whose workers share a done map and one
    iterator, and a stored record that is read, changed and written back. Every method is the
    matching event of the Upload machine, so its theorems over runs speak about this object. */
module UploadPage {
  import opened Basics
  import opened Upload

  ghost predicate IsListed(listing: seq<PartRecord>, n: nat) {
    exists k :: 0 <= k < |listing| && listing[k].partNumber == n
  }

  lemma {:induction false} ListedParts(parts: map<nat, File>, marker: nat, last: nat, n: nat)
    ensures IsListed(ListFrom(parts, marker, last), n) <==> marker < n <= last && n in parts
    decreases last - marker
  {
    if marker < last {
      ListedParts(parts, marker + 1, last, n);
      var rest := ListFrom(parts, marker + 1, last);
      if marker + 1 in parts {
        var all := ListFrom(parts, marker, last);
        assert all[0].partNumber == marker + 1 && all[1..] == rest;
        if IsListed(rest, n) {
          var k :| 0 <= k < |rest| && rest[k].partNumber == n;
          assert all[k + 1] == rest[k];
        }
      }
    }
  }

  /** One file in one browser: its stored record, and the calls of uploadFile for it in any tab. */
  class Browser {
    const file: File
    var stored: Option<Resume>
    var attempts: seq<Attempt>
    ghost var parts: map<nat, map<nat, File>>
    ghost var assembled: map<nat, File>

    ghost function Snapshot(): State
      reads this
    {
      State(parts, stored, attempts, assembled)
    }

    ghost predicate Ready(e: Event)
      reads this
    {
      Planned(file, Snapshot()) && Enabled(file, Snapshot(), e)
    }

    lemma KeepGood(e: Event)
      requires Ready(e)
      ensures Good(file, Snapshot()) ==> (Good(file, Next(file, Snapshot(), e)) <==> Owned(Snapshot(), e))
    {
      if Good(file, Snapshot()) {
        EventKeepsGoodIffOwned(file, Snapshot(), e);
      }
    }

    /** A file nobody has uploaded. */
    constructor (file: File)
      ensures this.file == file && Snapshot() == Untouched() && Good(file, Snapshot())
    {
      this.file := file;
      stored, attempts, parts, assembled := None, [], map[], map[];
      new;
      UntouchedIsGood(file);
    }

    /** A call begins with the record as it is: it re-attaches to that upload, or has none yet. */
    method GetResume() returns (a: nat)
      requires Ready(Look)
      modifies this`attempts
      ensures Snapshot() == Next(file, old(Snapshot()), Look)
      ensures a < |attempts| && (attempts[a].phase.Looked? <==> stored.None?)
    {
      a := |attempts|;
      if stored.Some? {
        attempts := attempts + [Attempt(Attached, stored.value.id, stored.value.done, [], 0, [])];
      } else {
        attempts := attempts + [Attempt(Looked, 0, {}, [], 0, [])];
      }
    }

    /** Finding none, it asks for a new upload, whatever happened to the record since. */
    method PostUpload(a: nat, id: nat)
      requires Ready(Initiate(a, id))
      modifies this`attempts, this`parts
      ensures Snapshot() == Next(file, old(Snapshot()), Initiate(a, id))
    {
      parts := parts[id := map[]];
      attempts := attempts[a := Attempt(Initiated, id, {}, [], 0, [])];
    }

    /** The call's upload and done map replace the record. */
    method SaveResume(a: nat, effective: bool)
      requires Ready(Save(a, effective))
      modifies this`attempts, this`stored
      ensures Snapshot() == Next(file, old(Snapshot()), Save(a, effective))
    {
      var t := attempts[a];
      if effective {
        stored := Some(Resume(t.id, t.done));
      }
      attempts := attempts[a := t.(phase := NextPhase(t.phase))];
    }

    /** The parts the server lists join the done map; nothing ever leaves it. */
    method ReconcileWith(a: nat, listing: seq<PartRecord>)
      requires Ready(List(a))
      requires listing == ListFrom(PartsOf(parts, attempts[a].id), 0, PartCount(|file|))
      modifies this`attempts
      ensures Snapshot() == Next(file, old(Snapshot()), List(a))
    {
      var done := attempts[a].done;
      for k := 0 to |listing|
        invariant forall n :: n in done <==> n in attempts[a].done || IsListed(listing[..k], n)
      {
        done := done + {listing[k].partNumber};
        forall n ensures IsListed(listing[..k + 1], n) <==> IsListed(listing[..k], n) || n == listing[k].partNumber {
          ListedOneMore(listing, k, n);
        }
      }
      assert listing[..|listing|] == listing;
      AllAreListed(file, PartsOf(parts, attempts[a].id), listing);
      assert done == attempts[a].done + Held(parts, attempts[a].id);
      attempts := attempts[a := attempts[a].(phase := Listed, done := done)];
    }

    /** The rest of the plan is what the pool is to send. */
    method StartPool(a: nat, workers: nat)
      requires Ready(Begin(a, workers))
      modifies this`attempts
      ensures Snapshot() == Next(file, old(Snapshot()), Begin(a, workers))
    {
      var t := attempts[a];
      var missing := MissingParts(t.done);
      attempts := attempts[a := t.(phase := Started, missing := missing, next := 0, workers := seq(workers, _ => Idle))];
    }

    method MissingParts(done: set<nat>) returns (missing: seq<nat>)
      ensures missing == Missing(PartCount(|file|), done)
    {
      missing := [];
      for n := 1 to PartCount(|file|) + 1
        invariant missing == Missing(n - 1, done)
      {
        if n !in done {
          missing := missing + [n];
        }
      }
    }

    /** A worker draws the next part from the shared iterator. */
    method TakePart(a: nat, w: nat)
      requires Ready(Take(a, w))
      modifies this`attempts
      ensures Snapshot() == Next(file, old(Snapshot()), Take(a, w))
    {
      var t := attempts[a];
      attempts := attempts[a := t.(next := t.next + 1, workers := t.workers[w := Putting(t.missing[t.next])])];
    }

    /** The part's slice of the file reaches storage. */
    method PutPart(a: nat, w: nat)
      requires Ready(Land(a, w))
      modifies this`attempts, this`parts
      ensures Snapshot() == Next(file, old(Snapshot()), Land(a, w))
    {
      var t := attempts[a];
      var n := t.workers[w].n;
      assert AttemptPlanned(file, t);
      parts := parts[t.id := PartsOf(parts, t.id)[n := PartBytes(file, n)]];
      attempts := attempts[a := t.(workers := t.workers[w := Landed(n)])];
    }

    /** The answer was ok: the part joins the done map in memory. */
    method AcknowledgePart(a: nat, w: nat)
      requires Ready(Acknowledge(a, w))
      modifies this`attempts
      ensures Snapshot() == Next(file, old(Snapshot()), Acknowledge(a, w))
    {
      var t := attempts[a];
      var n := t.workers[w].n;
      attempts := attempts[a := t.(done := t.done + {n}, workers := t.workers[w := Acknowledged(n)])];
    }

    /** The first half of markPart: the record as it is now, of whatever upload. */
    method ReadStored(a: nat, w: nat)
      requires Ready(ReadRecord(a, w))
      modifies this`attempts
      ensures Snapshot() == Next(file, old(Snapshot()), ReadRecord(a, w))
    {
      var t := attempts[a];
      attempts := attempts[a := t.(workers := t.workers[w := Marking(t.workers[w].n, stored)])];
    }

    /** The second half: the record read before, with this part, over whatever is stored now. */
    method WriteStored(a: nat, w: nat, effective: bool)
      requires Ready(WriteRecord(a, w, effective))
      modifies this`attempts, this`stored
      ensures Snapshot() == Next(file, old(Snapshot()), WriteRecord(a, w, effective))
      ensures old(Good(file, Snapshot())) ==> (Good(file, Snapshot()) <==> old(Owned(Snapshot(), WriteRecord(a, w, effective))))
    {
      KeepGood(WriteRecord(a, w, effective));
      var t := attempts[a];
      var m := t.workers[w];
      if effective && m.read.Some? {
        stored := Some(Resume(m.read.value.id, m.read.value.done + {m.n}));
      }
      attempts := attempts[a := t.(workers := t.workers[w := Idle])];
    }

    method Reject(a: nat, w: nat)
      requires Ready(Fail(a, w))
      modifies this`attempts
      ensures Snapshot() == Next(file, old(Snapshot()), Fail(a, w))
    {
      var t := attempts[a];
      attempts := attempts[a := t.(workers := t.workers[w := Stopped])];
    }

    /** The pool is drained: storage assembles the sorted listing, once. */
    method Complete(a: nat)
      requires Ready(Finish(a))
      modifies this`attempts, this`assembled
      ensures Snapshot() == Next(file, old(Snapshot()), Finish(a))
      ensures old(Good(file, Snapshot())) ==> Good(file, Snapshot()) && attempts[a].id in assembled && assembled[attempts[a].id] == file
    {
      KeepGood(Finish(a));
      var t := attempts[a];
      if t.id !in assembled {
        assembled := assembled[t.id := Assembled(PartsOf(parts, t.id), PartCount(|file|))];
      }
      attempts := attempts[a := t.(phase := Finished)];
    }

    /** And the record goes, whichever upload it is of. */
    method ClearResume(a: nat, effective: bool)
      requires Ready(Clear(a, effective))
      modifies this`attempts, this`stored
      ensures Snapshot() == Next(file, old(Snapshot()), Clear(a, effective))
    {
      if effective {
        stored := None;
      }
      attempts := attempts[a := Attempt(Gone, attempts[a].id, {}, [], 0, [])];
    }

    /** The page goes away. */
    method Unload(a: nat)
      requires Ready(Leave(a))
      modifies this`attempts
      ensures Snapshot() == Next(file, old(Snapshot()), Leave(a))
    {
      attempts := attempts[a := Attempt(Gone, attempts[a].id, {}, [], 0, [])];
    }
  }

  lemma AllAreListed(file: File, parts: map<nat, File>, listing: seq<PartRecord>)
    requires PartsFit(file, parts) && listing == ListFrom(parts, 0, PartCount(|file|))
    ensures forall n :: IsListed(listing, n) <==> n in parts
  {
    forall n ensures IsListed(listing, n) <==> n in parts {
      ListedParts(parts, 0, PartCount(|file|), n);
    }
  }

  lemma ListedOneMore(listing: seq<PartRecord>, k: nat, n: nat)
    requires k < |listing|
    ensures IsListed(listing[..k + 1], n) <==> IsListed(listing[..k], n) || n == listing[k].partNumber
  {
    if IsListed(listing[..k], n) {
      var i :| 0 <= i < k && listing[..k][i].partNumber == n;
      assert listing[..k + 1][i].partNumber == n;
    }
    assert listing[..k + 1][k] == listing[k];
  }
}
