/** Byte-string tests shared by publication and delivery: control characters, identities, sort order. */
module Text {
  import opened Basics
  import opened Decimal

  function Ascii(s: string): (b: Bytes)
    ensures |b| == |s|
  {
    seq(|s|, i requires 0 <= i < |s| => s[i] as int % 256)
  }

  /**
    Bytes below 0x20 and 0x7f. The source ranges over decoded runes; every ASCII byte of a string decodes to itself and
    no other byte decodes to a control character it tests for.
   */
  predicate IsControl(b: Byte) {
    b < 0x20 || b == 0x7f
  }

  predicate ContainsControl(s: Bytes) {
    exists i | 0 <= i < |s| :: IsControl(s[i])
  }

  /** UTF-8 encodings of the runes that strings.TrimSpace removes. */
  predicate IsSpace(p: Bytes) {
    || (|p| == 1 && (9 <= p[0] <= 13 || p[0] == 0x20))
    || (|p| == 2 && p[0] == 0xC2 && (p[1] == 0x85 || p[1] == 0xA0))
    || (|p| == 3 && p[0] == 0xE1 && p[1] == 0x9A && p[2] == 0x80)
    || (|p| == 3 && p[0] == 0xE2 && p[1] == 0x80 &&
        (0x80 <= p[2] <= 0x8A || p[2] == 0xA8 || p[2] == 0xA9 || p[2] == 0xAF))
    || (|p| == 3 && p[0] == 0xE2 && p[1] == 0x81 && p[2] == 0x9F)
    || (|p| == 3 && p[0] == 0xE3 && p[1] == 0x80 && p[2] == 0x80)
  }

  predicate StartsWithSpace(s: Bytes) {
    exists n | 1 <= n <= 3 && n <= |s| :: IsSpace(s[..n])
  }

  function Last(s: Bytes, n: nat): Bytes
    requires n <= |s|
  {
    s[|s| - n..]
  }

  predicate EndsWithSpace(s: Bytes) {
    exists n: nat | 1 <= n <= 3 && n <= |s| :: IsSpace(Last(s, n))
  }

  predicate IsBreak(b: Byte) {
    b == 0 || b == 10 || b == 13
  }

  /** config.go:183-186. */
  predicate InvalidIdentity(s: Bytes, maximum: int) {
    || s == [] || |s| > maximum
    || StartsWithSpace(s) || EndsWithSpace(s)
    || (exists i | 0 <= i < |s| :: IsBreak(s[i]))
  }

  // ---------------------------------------------------------------- publish tokens

  const SLASH: Byte := 47

  /** producer.go:380. */
  function Token(session: Bytes, sequence: nat): Bytes {
    session + [SLASH] + Format(sequence)
  }

  function Pow10(k: nat): nat {
    if k == 0 then 1 else 10 * Pow10(k - 1)
  }

  lemma {:induction false} FormatLength(n: nat, k: nat)
    requires k >= 1 && n < Pow10(k)
    ensures |Format(n)| <= k
  {
    if n >= 10 {
      FormatLength(n / 10, k - 1);
    }
  }

  const MaxSequence: nat := 0xFFFF_FFFF_FFFF_FFFF
  const MaxSessionBytes: nat := 128
  const MaxTokenBytes: nat := MaxSessionBytes + 1 + 20

  lemma SequenceDigits(n: nat)
    requires n <= MaxSequence
    ensures |Format(n)| <= 20
  {
    assert Pow10(5) == 100000;
    assert Pow10(10) == 100000 * 100000 by {
      assert Pow10(8) == 100000000;
    }
    assert Pow10(15) == 1000000000000000 by {
      assert Pow10(13) == 10000000000000;
    }
    assert Pow10(20) == 100000000000000000000 by {
      assert Pow10(18) == 1000000000000000000;
    }
    FormatLength(n, 20);
  }

  /** A space encoding holds neither a slash nor a digit. */
  lemma TokenTextIsNoSpace(p: Bytes, i: nat)
    requires i < |p| && (p[i] == SLASH || IsDigit(p[i]))
    ensures !IsSpace(p)
  {
  }

  /** Every session admitted at open and every 64-bit sequence give a token that delivery accepts. */
  lemma TokenIsIdentity(session: Bytes, sequence: nat)
    requires !InvalidIdentity(session, MaxSessionBytes) && sequence <= MaxSequence
    ensures !InvalidIdentity(Token(session, sequence), MaxTokenBytes)
  {
    var t := Token(session, sequence);
    SequenceDigits(sequence);
    forall n | 1 <= n <= 3 && n <= |t| ensures !IsSpace(t[..n]) {
      if n <= |session| {
        assert session[..n] == t[..n];
      } else {
        TokenTextIsNoSpace(t[..n], |session|);
      }
    }
    forall n: nat | 1 <= n <= 3 && n <= |t| ensures !IsSpace(Last(t, n)) {
      assert Last(t, n)[n - 1] == Format(sequence)[|Format(sequence)| - 1];
      TokenTextIsNoSpace(Last(t, n), n - 1);
    }
    forall i | 0 <= i < |t| ensures !IsBreak(t[i]) {
      if i < |session| {
        assert t[i] == session[i];
      } else if i > |session| {
        assert t[i] == Format(sequence)[i - |session| - 1];
      }
    }
  }

  /** Tokens tell a session's sequences apart. */
  lemma TokenInjective(session: Bytes, m: nat, n: nat)
    requires Token(session, m) == Token(session, n)
    ensures m == n
  {
    var k := |session| + 1;
    assert Token(session, m)[k..] == Format(m);
    assert Token(session, n)[k..] == Format(n);
    FormatInjective(m, n);
  }

  // ---------------------------------------------------------------- lexicographic order

  /** The order of sort.Strings. */
  predicate Less(a: Bytes, b: Bytes) {
    b != [] && (a == [] || a[0] < b[0] || (a[0] == b[0] && Less(a[1..], b[1..])))
  }

  lemma {:induction false} LessTotal(a: Bytes, b: Bytes)
    ensures Less(a, b) || a == b || Less(b, a)
  {
    if a != [] && b != [] && a[0] == b[0] {
      LessTotal(a[1..], b[1..]);
      if a[1..] == b[1..] {
        assert a == [a[0]] + a[1..] && b == [b[0]] + b[1..];
      }
    }
  }

  lemma {:induction false} LessIrreflexive(a: Bytes)
    ensures !Less(a, a)
  {
    if a != [] {
      LessIrreflexive(a[1..]);
    }
  }

  lemma {:induction false} LessTransitive(a: Bytes, b: Bytes, c: Bytes)
    requires Less(a, b) && Less(b, c)
    ensures Less(a, c)
  {
    if a != [] && a[0] == b[0] && b[0] == c[0] {
      LessTransitive(a[1..], b[1..], c[1..]);
    }
  }

  /** Strictly increasing, hence free of repetitions. */
  predicate Increasing(keys: seq<Bytes>) {
    forall i, j | 0 <= i < j < |keys| :: Less(keys[i], keys[j])
  }

  lemma SomeMember(a: seq<Bytes>, b: seq<Bytes>)
    requires b != [] && forall k :: k in a <==> k in b
    ensures a != []
  {
    assert b[0] in a;
  }

  /** A set of keys has one strictly increasing listing. */
  lemma {:induction false} IncreasingUnique(a: seq<Bytes>, b: seq<Bytes>)
    requires Increasing(a) && Increasing(b)
    requires forall k :: k in a <==> k in b
    ensures a == b
  {
    if b != [] {
      SomeMember(a, b);
    }
    if a != [] {
      assert a[0] in b;
      assert b[0] in a;
      var i :| 0 <= i < |b| && b[i] == a[0];
      var j :| 0 <= j < |a| && a[j] == b[0];
      if a[0] != b[0] {
        LessTransitive(a[0], b[0], a[0]);
        LessIrreflexive(a[0]);
      }
      forall k ensures k in a[1..] <==> k in b[1..] {
        LessIrreflexive(a[0]);
        assert k in a <==> k == a[0] || k in a[1..];
        assert k in b <==> k == b[0] || k in b[1..];
      }
      IncreasingUnique(a[1..], b[1..]);
      assert a == [a[0]] + a[1..] && b == [b[0]] + b[1..];
    }
  }
}
