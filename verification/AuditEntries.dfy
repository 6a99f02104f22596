/**
  The entries of the audit ledger and the hash chain that binds them.

  Serialisation followed by SHA-256 is the parameter `digest`; only the tamper-evidence results
  assume that it is injective.
 */
module AuditEntries {
  import opened Options

  datatype Actor = Actor(
    subject: Option<string>, clientId: Option<string>, scopes: seq<string>, roles: seq<string>, actorId: Option<string>)

  datatype Outcome = Outcome(status: string, durationMs: nat)

  datatype Entry = Entry(
    schemaVersion: string, eventType: string, ts: string, requestId: string,
    prevHash: Option<string>, hash: Option<string>,
    actor: Option<Actor>, tool: string, outcome: Outcome)

  type Digest = Entry -> string

  function HashEntry(digest: Digest, e: Entry): string {
    digest(e.(hash := None))
  }

  /** What `record` does to the entry it is given while it holds the hash lock. */
  function Seal(digest: Digest, last: Option<string>, e: Entry): Entry {
    var linked := e.(prevHash := last);
    linked.(hash := Some(HashEntry(digest, linked)))
  }

  /** Sealing sets the two hash fields and keeps the rest of the entry. */
  lemma SealKeepsRecord(digest: Digest, last: Option<string>, e: Entry)
    ensures var x := Seal(digest, last, e);
      && x.prevHash == last && x.hash == Some(digest(x.(hash := None)))
      && x.(prevHash := None, hash := None) == e.(prevHash := None, hash := None)
  {}

  /** Distinct entries, hash field cleared, never share a digest. */
  ghost predicate Injective(digest: Digest) {
    forall a: Entry, b: Entry | a.hash == None && b.hash == None && digest(a) == digest(b) :: a == b
  }

  /** The hash a run of entries ends in, when it started after the hash `prev`. */
  function EndHash(prev: Option<string>, es: seq<Entry>): Option<string> {
    if es == [] then prev else es[|es| - 1].hash
  }

  ghost predicate Linked(digest: Digest, prev: Option<string>, es: seq<Entry>, i: nat)
    requires i < |es|
  {
    && es[i].hash == Some(HashEntry(digest, es[i]))
    && es[i].prevHash == EndHash(prev, es[..i])
  }

  /** The check an auditor makes: every entry carries its own hash and the hash before it. */
  ghost predicate Verifies(digest: Digest, prev: Option<string>, es: seq<Entry>) {
    forall i: nat | i < |es| :: Linked(digest, prev, es, i)
  }

  lemma SealExtends(digest: Digest, prev: Option<string>, es: seq<Entry>, e: Entry)
    requires Verifies(digest, prev, es)
    ensures Verifies(digest, prev, es + [Seal(digest, EndHash(prev, es), e)])
  {
    var longer := es + [Seal(digest, EndHash(prev, es), e)];
    forall i: nat | i < |longer| ensures Linked(digest, prev, longer, i) {
      assert longer[..i] == es[..i];
      if i < |es| {
        assert Linked(digest, prev, es, i);
      } else {
        assert es[..i] == es;
      }
    }
  }

  lemma PrefixVerifies(digest: Digest, prev: Option<string>, es: seq<Entry>, n: nat)
    requires n <= |es| && Verifies(digest, prev, es)
    ensures Verifies(digest, prev, es[..n])
  {
    forall i: nat | i < n ensures Linked(digest, prev, es[..n], i) {
      assert Linked(digest, prev, es, i);
      assert es[..n][..i] == es[..i];
    }
  }

  /** A window cut out of a chain verifies from the hash just before it. */
  lemma SuffixVerifies(digest: Digest, prev: Option<string>, es: seq<Entry>, n: nat)
    requires n <= |es| && Verifies(digest, prev, es)
    ensures Verifies(digest, EndHash(prev, es[..n]), es[n..])
    ensures EndHash(EndHash(prev, es[..n]), es[n..]) == EndHash(prev, es)
  {
    forall i: nat | i < |es| - n ensures Linked(digest, EndHash(prev, es[..n]), es[n..], i) {
      assert Linked(digest, prev, es, n + i);
      if i == 0 {
        assert es[n..][..0] == [];
      }
    }
    if n == |es| {
      assert es[..n] == es;
    }
  }

  /**
    Two verified windows that end in the same hash agree on their whole common length, and the
    shorter one started from the hash that the longer one carries at that point.
   */
  lemma {:induction false} SameEndHashSameSuffix(
    digest: Digest, p: Option<string>, a: seq<Entry>, q: Option<string>, b: seq<Entry>)
    requires Injective(digest)
    requires Verifies(digest, p, a) && Verifies(digest, q, b)
    requires 0 < |a| <= |b| && EndHash(p, a) == EndHash(q, b)
    ensures a == b[|b| - |a|..]
    ensures p == EndHash(q, b[..|b| - |a|])
    decreases |a|
  {
    var i, j := |a| - 1, |b| - 1;
    assert Linked(digest, p, a, i) && Linked(digest, q, b, j);
    assert a[i].(hash := None) == b[j].(hash := None);
    assert a[i] == b[j];
    assert EndHash(p, a[..i]) == EndHash(q, b[..j]);
    if i == 0 {
      assert a[..i] == [];
    } else {
      PrefixVerifies(digest, p, a, i);
      PrefixVerifies(digest, q, b, j);
      SameEndHashSameSuffix(digest, p, a[..i], q, b[..j]);
      assert b[..j][..|b| - |a|] == b[..|b| - |a|];
      assert a == a[..i] + [a[i]];
      assert b[|b| - |a|..] == b[..j][|b| - |a|..] + [b[j]];
    }
  }

  /** A complete chain is determined by the hash it ends in: entries, order and length. */
  lemma EndHashDeterminesLedger(digest: Digest, a: seq<Entry>, b: seq<Entry>)
    requires Injective(digest)
    requires Verifies(digest, None, a) && Verifies(digest, None, b)
    ensures EndHash(None, a) == EndHash(None, b) <==> a == b
  {
    if EndHash(None, a) == EndHash(None, b) {
      EndsHashed(digest, None, a);
      EndsHashed(digest, None, b);
      if a != [] && b != [] {
        var short, long := if |a| <= |b| then a else b, if |a| <= |b| then b else a;
        SameEndHashSameSuffix(digest, None, short, None, long);
        var rest := long[..|long| - |short|];
        PrefixVerifies(digest, None, long, |rest|);
        EndsHashed(digest, None, rest);
        assert rest == [];
      }
    }
  }

  /** Windows of equal length with the same final hash are the same window. */
  lemma EndHashDeterminesWindow(digest: Digest, p: Option<string>, a: seq<Entry>, q: Option<string>, b: seq<Entry>)
    requires Injective(digest)
    requires Verifies(digest, p, a) && Verifies(digest, q, b) && |a| == |b|
    ensures EndHash(p, a) == EndHash(q, b) <==> p == q && a == b
  {
    if EndHash(p, a) == EndHash(q, b) && a != [] {
      SameEndHashSameSuffix(digest, p, a, q, b);
      assert b[..0] == [];
    }
  }

  lemma EndsHashed(digest: Digest, prev: Option<string>, es: seq<Entry>)
    requires Verifies(digest, prev, es)
    ensures es != [] ==> EndHash(prev, es).Some?
  {
    if es != [] {
      assert Linked(digest, prev, es, |es| - 1);
    }
  }
}
