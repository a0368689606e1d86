/**
 The pipe (pipe.c): a ring of 512 bytes with two free-running counters of the machine's
 word size.  What a reader or writer does between taking the pipe's lock and sleeping on
 it, or releasing it, is one call here.
*/
module Pipe {
  const PIPE_SIZE: nat := 512

  datatype Written = Finished | Full | Fault | Broken
  datatype Read = Blocked | Killed | Got(bytes: seq<bv8>)

  /** A counter that wraps at the word size still tells the place in the ring. */
  lemma WrappedPlace(n: nat, word: nat)
    requires word > 0 && word % PIPE_SIZE == 0
    ensures (n % word) % PIPE_SIZE == n % PIPE_SIZE
  {
    var m := Multiple(word);
    var q := Quotient(n, word);
    Wraps(q, m, n % word, word);
  }

  lemma Multiple(word: nat) returns (m: nat)
    requires word % PIPE_SIZE == 0
    ensures word == m * PIPE_SIZE
  {
    m := word / PIPE_SIZE;
  }

  lemma Quotient(n: nat, word: nat) returns (q: nat)
    requires word > 0
    ensures n == q * word + n % word
  {
    q := n / word;
  }

  lemma Wraps(q: nat, m: nat, x: nat, word: nat)
    requires word == m * PIPE_SIZE
    ensures (q * word + x) % PIPE_SIZE == x % PIPE_SIZE
  {
    assert q * word == (q * m) * PIPE_SIZE by {
      assert q * (m * PIPE_SIZE) == (q * m) * PIPE_SIZE;
    }
    var k := q * m;
    assert (k * PIPE_SIZE + x) % PIPE_SIZE == x % PIPE_SIZE;
  }

  /** Two counters less than a word apart wrap to the same value only if they are equal. */
  lemma WrapApart(a: nat, b: nat, word: nat)
    requires a <= b < a + word
    ensures a % word == b % word <==> a == b
  {
    if a % word == b % word {
      var qa, qb := a / word, b / word;
      assert b - a == (qb - qa) * word by {
        assert a == qa * word + a % word && b == qb * word + b % word;
        assert (qb - qa) * word == qb * word - qa * word;
      }
      assert qb - qa >= 1 ==> (qb - qa - 1) * word >= 0;
      assert qb - qa <= -1 ==> (qb - qa + 1) * word <= 0;
    }
  }

  lemma WrapAdd(a: nat, k: nat, word: nat)
    requires word > 0
    ensures (a % word + k) % word == (a + k) % word
  {
    var q := a / word;
    assert a + k == (a % word + k) + q * word;
    Shifted(a % word + k, q, word);
  }

  lemma {:induction false} Shifted(x: nat, q: nat, word: nat)
    requires word > 0
    ensures (x + q * word) % word == x % word
  {
    if q > 0 {
      Shifted(x, q - 1, word);
      assert x + q * word == (x + (q - 1) * word) + word;
      Once(x + (q - 1) * word, word);
    }
  }

  lemma Once(y: nat, d: nat)
    requires d > 0
    ensures (y + d) % d == y % d
  {
    var q, r, q', r' := y / d, y % d, (y + d) / d, (y + d) % d;
    assert y == q * d + r && y + d == q' * d + r';
    var k := q' - q - 1;
    assert k * d == r - r' by { assert k * d == q' * d - q * d - d; }
    assert k >= 1 ==> (k - 1) * d >= 0;
    assert k <= -1 ==> (-k - 1) * d >= 0;
  }

  /** A counter that stands for that many bytes. */
  predicate Counts(n: nat, bytes: nat, word: nat) {
    word > 0 && n == bytes % word
  }

  lemma CountOne(n: nat, bytes: nat, word: nat)
    requires Counts(n, bytes, word) && word % PIPE_SIZE == 0
    ensures Counts((n + 1) % word, bytes + 1, word) && n % PIPE_SIZE == bytes % PIPE_SIZE
  {
    WrappedPlace(bytes, word);
    WrapAdd(bytes, 1, word);
  }

  /** The ring holds what was put in and not taken out. */
  ghost predicate Holds(ring: seq<bv8>, taken: seq<bv8>, written: seq<bv8>) {
    && |ring| == PIPE_SIZE && taken <= written && |written| - |taken| <= PIPE_SIZE
    && forall k :: |taken| <= k < |written| ==> ring[k % PIPE_SIZE] == written[k]
  }

  lemma PutHolds(ring: seq<bv8>, taken: seq<bv8>, written: seq<bv8>, ch: bv8)
    requires Holds(ring, taken, written) && |written| - |taken| < PIPE_SIZE
    ensures Holds(ring[|written| % PIPE_SIZE := ch], taken, written + [ch])
  {
    ApartInRing(|taken|, |written|);
  }

  lemma TakeHolds(ring: seq<bv8>, taken: seq<bv8>, written: seq<bv8>)
    requires Holds(ring, taken, written) && |taken| < |written|
    ensures Holds(ring, taken + [ring[|taken| % PIPE_SIZE]], written)
  {
  }

  class Ring {
    const word: nat
    const data: array<bv8>
    var nread: nat
    var nwrite: nat
    var readOpen: bool
    var writeOpen: bool
    /** Every byte ever put in, every byte ever taken out, and how often the pipe was freed. */
    ghost var written: seq<bv8>
    ghost var taken: seq<bv8>
    ghost var freed: nat

    /** What was taken is a prefix of what was put in, and the ring holds the rest, at most 512 bytes. */
    ghost predicate Valid()
      reads this, data
    {
      && word > PIPE_SIZE && word % PIPE_SIZE == 0 && data.Length == PIPE_SIZE
      && taken <= written && |written| - |taken| <= PIPE_SIZE && Holds(data[..], taken, written)
      && Counts(nwrite, |written|, word) && Counts(nread, |taken|, word)
    }

    /** Freed once both ends are closed, and once only. */
    ghost predicate FreedOnce()
      reads this
    {
      freed == if readOpen || writeOpen then 0 else 1
    }

    /** pipe_alloc */
    constructor (word: nat)
      requires word > PIPE_SIZE && word % PIPE_SIZE == 0
      ensures Valid() && FreedOnce() && fresh(data) && readOpen && writeOpen && written == taken == []
    {
      this.word := word;
      data := new bv8[PIPE_SIZE];
      nread, nwrite, readOpen, writeOpen := 0, 0, true, true;
      written, taken, freed := [], [], 0;
    }

    /** pipe_is_empty, in spite of the wrap */
    predicate IsEmpty()
      reads this
    {
      nread == nwrite
    }

    /** pipe_is_full, in words of the machine */
    predicate IsFull()
      requires word > 0
      reads this
    {
      nwrite == (nread + PIPE_SIZE) % word
    }

    lemma EmptyAndFull()
      requires Valid()
      ensures IsEmpty() <==> |written| == |taken|
      ensures IsFull() <==> |written| - |taken| == PIPE_SIZE
    {
      WrapApart(|taken|, |written|, word);
      WrapAdd(|taken|, PIPE_SIZE, word);
      WrapApart(|written|, |taken| + PIPE_SIZE, word);
    }

    /** One byte into the ring. */
    method Put(ch: bv8)
      requires Valid() && !IsFull()
      modifies this`nwrite, this`written, data
      ensures Valid() && written == old(written) + [ch] && nwrite == (old(nwrite) + 1) % word
    {
      hide Counts, Holds;
      EmptyAndFull();
      CountOne(nwrite, |written|, word);
      PutHolds(data[..], taken, written, ch);
      data[nwrite % PIPE_SIZE] := ch;
      nwrite := (nwrite + 1) % word;
      written := written + [ch];
    }

    /** One byte out of it: the oldest. */
    method Take() returns (ch: bv8)
      requires Valid() && !IsEmpty()
      modifies this`nread, this`taken
      ensures Valid() && taken == old(taken) + [ch] && nread == (old(nread) + 1) % word
    {
      hide Counts, Holds;
      EmptyAndFull();
      CountOne(nread, |taken|, word);
      TakeHolds(data[..], taken, written);
      NextTaken(taken, written, data[..]);
      ch := data[nread % PIPE_SIZE];
      nread := (nread + 1) % word;
      taken := taken + [ch];
    }

    /**
     pipe_write from byte i on, until it sleeps (Full) or returns.  `killed` and `unreadable`
     say at which byte the process is seen killed, or its memory cannot be read.
    */
    method Write(src: seq<bv8>, i: nat, killed: nat -> bool, unreadable: nat -> bool) returns (r: Written, i': nat)
      requires Valid() && i <= |src|
      modifies this`nwrite, this`written, data
      ensures Valid() && i <= i' <= |src| && written == old(written) + src[i..i']
      ensures match r
        case Finished => i' == |src|
        case Full => i' < |src| && IsFull() && readOpen && |written| - |taken| == PIPE_SIZE
        case Fault => i' < |src| && !IsFull() && unreadable(i')
        case Broken => i' < |src| && (!readOpen || killed(i'))
      ensures !readOpen ==> i' == i
    {
      hide Counts, Holds;
      i' := i;
      while i' < |src|
        invariant Valid() && i <= i' <= |src| && written == old(written) + src[i..i']
        invariant !readOpen ==> i' == i
      {
        if !readOpen || killed(i') {
          return Broken, i';
        }
        EmptyAndFull();
        if IsFull() {
          return Full, i';
        }
        if unreadable(i') {
          return Fault, i';
        }
        Put(src[i']);
        i' := i' + 1;
      }
      r := Finished;
    }

    /**
     pipe_read until it sleeps (Blocked) or returns.  A byte that cannot be copied out is
     taken from the ring all the same.
    */
    method ReadBytes(n: nat, killed: bool, unwritable: nat -> bool) returns (r: Read)
      requires Valid()
      modifies this`nread, this`taken
      ensures Valid()
      ensures match r
        case Blocked => taken == old(taken) && |written| == |taken| && writeOpen && !killed
        case Killed => taken == old(taken) && |written| == |taken| && writeOpen && killed
        case Got(bytes) => (
          && |bytes| <= n && old(taken) + bytes <= taken && |taken| <= |old(taken) + bytes| + 1
          && (taken == old(taken) + bytes ==> |bytes| == n || taken == written)
          && (|taken| == |old(taken) + bytes| + 1 ==> |bytes| < n && unwritable(|bytes|))
        )
      ensures old(|written| > |taken|) ==> r.Got?
    {
      hide Counts, Holds;
      EmptyAndFull();
      if IsEmpty() && writeOpen {
        return if killed then Killed else Blocked;
      }
      var bytes: seq<bv8> := [];
      while |bytes| < n
        invariant Valid() && |bytes| <= n && taken == old(taken) + bytes
        decreases n - |bytes|
      {
        EmptyAndFull();
        if IsEmpty() {
          return Got(bytes);
        }
        var ch := Take();
        if unwritable(|bytes|) {
          return Got(bytes);
        }
        bytes := bytes + [ch];
      }
      return Got(bytes);
    }

    /**
     pipe_close: the pipe is freed by whoever closes the second end.  It stays freed once
     exactly if an end was still open at the call, this one or the other.
    */
    method Close(closeWritingEnd: bool) returns (freePipe: bool)
      requires Valid()
      modifies this`readOpen, this`writeOpen, this`freed
      ensures Valid() && freed == old(freed) + (if freePipe then 1 else 0)
      ensures freePipe <==> !readOpen && !writeOpen
      ensures old(FreedOnce()) ==> (FreedOnce() <==> old(readOpen || writeOpen))
      ensures writeOpen == (old(writeOpen) && !closeWritingEnd) && readOpen == (old(readOpen) && closeWritingEnd)
    {
      if closeWritingEnd {
        writeOpen := false;
      } else {
        readOpen := false;
      }
      freePipe := !readOpen && !writeOpen;
      if freePipe {
        freed := freed + 1;
      }
    }
  }

  lemma NextTaken(taken: seq<bv8>, written: seq<bv8>, ring: seq<bv8>)
    requires Holds(ring, taken, written) && |taken| < |written|
    ensures taken + [ring[|taken| % PIPE_SIZE]] <= written
  {
  }

  /** Places of the ring that are in use are distinct. */
  lemma ApartInRing(a: nat, b: nat)
    requires a <= b < a + PIPE_SIZE
    ensures forall k :: a <= k < b ==> k % PIPE_SIZE != b % PIPE_SIZE
  {
  }
}
