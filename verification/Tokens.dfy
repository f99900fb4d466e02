/**
 Lines of tokens: what is on its way from a worker to its session, what its VM
 is doing and what the worker has still to handle, oldest first.  `Good` is the
 ordering discipline that makes NonePending trustworthy; the lemmas say which
 rewritings of a line keep it.
 */
module Tokens {
  /** Work(n): dispatch n or its ack.  Scripts: a CreateScriptsVm or Restart not
      yet taken up.  Running: the VM is busy.  Note: a runtime message.
      Inert: the ack of the opening CreateScriptsVm. */
  datatype Token = Work(n: nat) | Scripts | Running | Done | Note | Inert

  ghost predicate HasWork(f: seq<Token>) { exists t :: t in f && t.Work? }

  ghost predicate AllWork(f: seq<Token>) { forall t :: t in f ==> t.Work? }

  ghost predicate Above(f: seq<Token>, n: nat) { forall t :: t in f && t.Work? ==> n < t.n }

  /** What may follow a token: after a Done either nothing or at least some Work,
      after Scripts and after Running only Work; Scripts come first but for
      Inert; the numbers on Work tokens increase. */
  ghost predicate Follows(t: Token, rest: seq<Token>) {
    && (t.Done? ==> rest == [] || HasWork(rest))
    && (t.Scripts? || t.Running? ==> AllWork(rest))
    && (!t.Inert? ==> Scripts !in rest)
    && (t.Work? ==> Above(rest, t.n))
  }

  ghost predicate Good(f: seq<Token>) {
    f == [] || (Follows(f[0], f[1..]) && Good(f[1..]))
  }

  // ----- rewriting a good line -----

  lemma {:induction false} GoodSuffix(a: seq<Token>, x: seq<Token>)
    requires Good(a + x)
    ensures Good(x)
  {
    if a == [] {
      assert a + x == x;
    } else {
      assert (a + x)[1..] == a[1..] + x;
      GoodSuffix(a[1..], x);
    }
  }

  /** `y` may stand where `x` stood. */
  ghost predicate Replaces(x: seq<Token>, y: seq<Token>) {
    && (x == [] ==> y == [])
    && (HasWork(x) ==> HasWork(y))
    && (Scripts in y ==> Scripts in x)
    && (forall t :: t in y && t.Work? ==> t in x)
  }

  /** Tokens of channels that lead to the session. */
  ghost predicate Outgoing(f: seq<Token>) { Scripts !in f && Running !in f }

  lemma {:induction false} GoodReplace(a: seq<Token>, x: seq<Token>, y: seq<Token>)
    requires Good(a + x) && Good(y) && Replaces(x, y)
    requires Outgoing(a) || (AllWork(x) ==> AllWork(y))
    ensures Good(a + y)
  {
    if a == [] {
      assert a + y == y;
    } else {
      var b := a[1..];
      assert (a + x)[1..] == b + x && (a + y)[1..] == b + y;
      GoodReplace(b, x, y);
      assert forall t :: t in b + y ==> t in b || t in y;
      if a[0].Done? && b + x != [] {
        var t :| t in b + x && t.Work?;
        if t in b {
          assert t in b + y;
        } else {
          assert HasWork(x);
          var u :| u in y && u.Work?;
          assert u in b + y;
        }
      }
      assert AllWork(b + x) ==> AllWork(x) && AllWork(b) by {
        assert forall t :: t in x ==> t in b + x;
        assert forall t :: t in b ==> t in b + x;
      }
      assert Scripts in b || Scripts in x ==> Scripts in b + x;
    }
  }

  lemma {:induction false} GoodFinish(a: seq<Token>, b: seq<Token>)
    requires Good(a + ([Running] + b))
    ensures Good(a + ([Done] + b))
  {
    var x, y := [Running] + b, [Done] + b;
    GoodSuffix(a, x);
    assert x[1..] == b == y[1..];
    assert b != [] ==> b[0] in b;
    assert x[0] in x;
    GoodReplace(a, x, y);
  }

  lemma {:induction false} GoodRestart(a: seq<Token>, b: seq<Token>)
    requires Good(a + ([Scripts] + b))
    ensures Good(a + ([Running] + b))
  {
    var x, y := [Scripts] + b, [Running] + b;
    GoodSuffix(a, x);
    assert x[1..] == b == y[1..];
    assert x[0] in x;
    GoodReplace(a, x, y);
  }

  lemma {:induction false} GoodTake(a: seq<Token>, busy: seq<Token>, n: nat, b: seq<Token>)
    requires Outgoing(a) && (busy == [] || busy == [Running])
    requires Good(a + (busy + ([Work(n)] + b))) && AllWork(b)
    ensures Good(a + ([Work(n)] + ([Running] + b)))
  {
    var w, r := [Work(n)] + b, [Running] + b;
    var x, y := busy + w, [Work(n)] + r;
    GoodSuffix(a, x);
    GoodSuffix(busy, w);
    assert w[1..] == b == r[1..] && y[1..] == r;
    assert y[0] in y && w[0] in x;
    assert forall t :: t in b ==> t in x;
    GoodReplace(a, x, y);
  }

  lemma {:induction false} BusyMeansOpen(x: seq<Token>)
    requires Good(x) && Running in x
    ensures Scripts !in x
  {
    if x[0] != Running {
      BusyMeansOpen(x[1..]);
    }
  }

  lemma {:induction false} GoodEmit(a: seq<Token>, x: seq<Token>)
    requires Good(a + x) && Running in x
    ensures Good(a + ([Note] + x))
  {
    var y := [Note] + x;
    GoodSuffix(a, x);
    BusyMeansOpen(x);
    assert y[1..] == x;
    assert forall t :: t in x ==> t in y;
    GoodReplace(a, x, y);
  }

  lemma {:induction false} GoodNotes(notes: seq<Token>, b: seq<Token>)
    requires (forall t :: t in notes ==> t == Note) && Good(b) && (notes != [] ==> Scripts !in b)
    ensures Good(notes + b)
  {
    if notes == [] {
      assert notes + b == b;
    } else {
      assert notes[0] in notes;
      assert (notes + b)[1..] == notes[1..] + b;
      assert forall t :: t in notes[1..] ==> t in notes;
      GoodNotes(notes[1..], b);
    }
  }

  lemma {:induction false} GoodForwardAck(a: seq<Token>, notes: seq<Token>, n: nat, b: seq<Token>)
    requires Outgoing(a) && Good(a + (notes + ([Work(n)] + b))) && forall t :: t in notes ==> t == Note
    ensures Good(a + ([Work(n)] + (notes + b)))
  {
    var w := [Work(n)] + b;
    var x, y := notes + w, [Work(n)] + (notes + b);
    GoodSuffix(a, x);
    GoodSuffix(notes, w);
    assert w[1..] == b && y[1..] == notes + b;
    GoodNotes(notes, b);
    assert y[0] in y && w[0] in x;
    assert forall t :: t in b ==> t in x;
    GoodReplace(a, x, y);
  }

  lemma {:induction false} GoodOpen(a: seq<Token>, b: seq<Token>, k: Token)
    requires Good(a + ([Scripts] + b)) && (k == Scripts || k == Running)
    ensures Good(a + ([Inert] + ([k] + b)))
  {
    var x, z := [Scripts] + b, [k] + b;
    var y := [Inert] + z;
    GoodSuffix(a, x);
    assert x[1..] == b == z[1..] && y[1..] == z;
    assert x[0] in x;
    assert forall t :: t in b ==> t in y;
    GoodReplace(a, x, y);
  }

  lemma {:induction false} GoodAppendWork(f: seq<Token>, n: nat)
    requires Good(f) && forall t :: t in f && t.Work? ==> t.n < n
    ensures Good(f + [Work(n)])
  {
    var g := f + [Work(n)];
    if f != [] {
      assert g[1..] == f[1..] + [Work(n)];
      GoodAppendWork(f[1..], n);
      assert Work(n) in g[1..];
    }
  }

  lemma {:induction false} OnlyInertBefore(a: seq<Token>, b: seq<Token>)
    requires Good(a + ([Scripts] + b))
    ensures forall t :: t in a ==> t == Inert
  {
    if a != [] {
      var c := a[1..] + ([Scripts] + b);
      assert (a + ([Scripts] + b))[1..] == c;
      assert c[|a| - 1] == Scripts && Scripts in c;
      OnlyInertBefore(a[1..], b);
      assert a == [a[0]] + a[1..];
    }
  }
}
