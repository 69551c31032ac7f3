/**
 * src/ReferenceGenerator.php: random transaction references. openssl_random_pseudo_bytes is an
 * oracle: a finite stream of random bytes that the loops consume from a position onwards. Where
 * the source would draw for ever, the model runs out of stream and answers None.
 */
module ReferenceGenerator {
  import opened Wrappers

  /** A byte as openssl_random_pseudo_bytes yields it. */
  type Byte = b: int | 0 <= b < 256

  const NUMERIC: string := "0123456789"
  const LOWERS: string := "abcdefghijklmnopqrstuvwxyz"
  const UPPERS: string := "ABCDEFGHIJKLMNOPQRSTUVWXYZ"
  /** The digits, then the lower-case letters, then the upper-case ones. */
  const ALNUM: string := NUMERIC + LOWERS + UPPERS
  const ALPHA: string := LOWERS + UPPERS
  const HEXDEC: string := "0123456789abcdef"
  const NOZERO: string := "123456789"
  const DISTINCT: string := "2345679ACDEFHJKLMNPRSTUVWXYZ"

  /** The named pools getPool knows. */
  const POOLS: map<string, string> :=
    map["alnum" := ALNUM, "alpha" := ALPHA, "hexdec" := HEXDEC,
        "numeric" := NUMERIC, "nozero" := NOZERO, "distinct" := DISTINCT]

  predicate LetterOrDigit(c: char) {
    '0' <= c <= '9' || 'a' <= c <= 'z' || 'A' <= c <= 'Z'
  }

  /** `getPool($type)`: a named pool, or for any other type the type string itself. */
  function GetPool(kind: string): (pool: string)
    ensures kind in POOLS ==> pool == POOLS[kind]
    ensures kind !in POOLS ==> pool == kind
  {
    match kind
    case "alnum" => ALNUM
    case "alpha" => ALPHA
    case "hexdec" => HEXDEC
    case "numeric" => NUMERIC
    case "nozero" => NOZERO
    case "distinct" => DISTINCT
    case _ => kind
  }

  lemma AlnumPool()
    ensures |ALNUM| == 62
    ensures forall i :: 0 <= i < |ALNUM| ==> LetterOrDigit(ALNUM[i])
  {
    assert forall i :: 0 <= i < |NUMERIC| ==> '0' <= NUMERIC[i] <= '9';
    assert forall i :: 0 <= i < |LOWERS| ==> 'a' <= LOWERS[i] <= 'z';
    assert forall i :: 0 <= i < |UPPERS| ==> 'A' <= UPPERS[i] <= 'Z';
  }

  lemma OtherPools()
    ensures |ALPHA| == 52 && |HEXDEC| == 16 && |NUMERIC| == 10 && |NOZERO| == 9 && |DISTINCT| == 28
    ensures forall i :: 0 <= i < |DISTINCT| ==> LetterOrDigit(DISTINCT[i])
  {
  }

  /** The named pools are made of letters and digits only; a type string used as a pool is not checked. */
  lemma NamedPoolsAreAlphanumeric(kind: string)
    requires kind in POOLS
    ensures forall i :: 0 <= i < |GetPool(kind)| ==> LetterOrDigit(GetPool(kind)[i])
  {
    AlnumPool();
    OtherPools();
  }

  function Pow2(n: nat): (p: nat)
    ensures p >= 1
  {
    if n == 0 then 1 else 2 * Pow2(n - 1)
  }

  /**
   * `(int) log($range, 2) + 1`: the number of bits of the range. For a range of 0 the logarithm is
   * -INF, which PHP casts to 0, so the count is 1, as for a range of 1.
   */
  function BitLength(range: nat): (bits: nat)
    ensures bits >= 1 && range < Pow2(bits)
    ensures range >= 2 ==> Pow2(bits - 1) <= range
  {
    if range < 2 then 1 else 1 + BitLength(range / 2)
  }

  /** `(int) ($log / 8) + 1`: the number of bytes each draw reads. */
  function ByteCount(range: nat): (n: nat)
    ensures n >= 1
  {
    (BitLength(range) - 1) / 8 + 1
  }

  /** A draw reads enough bytes to cover every bit the mask keeps. */
  lemma BytesCoverBits(range: nat)
    ensures 8 * ByteCount(range) >= BitLength(range)
  {
  }

  /** `hexdec(bin2hex($bytes))`: the bytes read as one big-endian number. */
  function BigEndian(bytes: seq<Byte>): (v: nat)
    ensures v < Pow2(8 * |bytes|)
  {
    if bytes == [] then 0
    else
      var rest := BigEndian(bytes[..|bytes| - 1]);
      assert Pow2(8 * |bytes|) == Pow2(8 * (|bytes| - 1)) * 256 by {
        Pow2Add(8 * (|bytes| - 1), 8);
      }
      rest * 256 + bytes[|bytes| - 1]
  }

  lemma {:induction false} Pow2Add(a: nat, b: nat)
    ensures Pow2(a + b) == Pow2(a) * Pow2(b)
  {
    if a > 0 {
      Pow2Add(a - 1, b);
    }
  }

  /**
   * `$rnd & $filter` with `$filter = (1 << $bits) - 1`: for a non-negative number, keeping the
   * low `bits` bits is the remainder modulo 2^bits.
   */
  function Masked(rnd: nat, bits: nat): (m: nat)
    ensures m < Pow2(bits)
    ensures rnd < Pow2(bits) ==> m == rnd
  {
    var p := Pow2(bits);
    Remainder(rnd, p);
    rnd % p
  }

  lemma Remainder(x: nat, p: nat)
    requires p >= 1
    ensures 0 <= x % p < p
    ensures x < p ==> x % p == x
  {
  }

  /** The candidate the draw at `pos` yields for a range. */
  function Candidate(random: seq<Byte>, pos: nat, range: nat): (c: nat)
    requires pos + ByteCount(range) <= |random|
    ensures c < Pow2(BitLength(range))
  {
    Masked(BigEndian(random[pos..pos + ByteCount(range)]), BitLength(range))
  }

  /**
   * The rejection loop as a function: the first candidate below the range, with the position
   * after its draw, or None when the stream runs out first.
   */
  function FirstAccepted(random: seq<Byte>, pos: nat, range: nat): (r: Option<(nat, nat)>)
    requires pos <= |random|
    decreases |random| - pos
  {
    if pos + ByteCount(range) > |random| then None
    else if Candidate(random, pos, range) < range then Some((Candidate(random, pos, range), pos + ByteCount(range)))
    else FirstAccepted(random, pos + ByteCount(range), range)
  }

  /** What the loop accepts is below the range, and the stream position only moves forward. */
  lemma {:induction false} FirstAcceptedInRange(random: seq<Byte>, pos: nat, range: nat)
    requires pos <= |random|
    ensures var r := FirstAccepted(random, pos, range);
            r.Some? ==> r.value.0 < range && pos < r.value.1 <= |random|
    decreases |random| - pos
  {
    if pos + ByteCount(range) <= |random| && Candidate(random, pos, range) >= range {
      FirstAcceptedInRange(random, pos + ByteCount(range), range);
    }
  }

  /** With a range of 0 no candidate is ever accepted: secureCrypt(m, m) never returns. */
  lemma {:induction false} EmptyRangeNeverAccepts(random: seq<Byte>, pos: nat)
    requires pos <= |random|
    ensures FirstAccepted(random, pos, 0).None?
    decreases |random| - pos
  {
    if pos + ByteCount(0) <= |random| {
      EmptyRangeNeverAccepts(random, pos + ByteCount(0));
    }
  }

  /**
   * The do-while loop of secureCrypt: draw `ByteCount(range)` bytes, mask them to
   * `BitLength(range)` bits, and repeat while the result is not below the range.
   */
  method Draw(random: seq<Byte>, pos: nat, range: nat) returns (rnd: Option<nat>, next: nat)
    requires pos <= |random|
    ensures pos <= next <= |random|
    ensures rnd.Some? <==> FirstAccepted(random, pos, range).Some?
    ensures rnd.Some? ==> (rnd.value, next) == FirstAccepted(random, pos, range).value
  {
    var bytes := ByteCount(range);
    var bits := BitLength(range);
    next := pos;
    while true
      invariant pos <= next <= |random|
      invariant FirstAccepted(random, next, range) == FirstAccepted(random, pos, range)
      decreases |random| - next
    {
      if next + bytes > |random| {
        return None, next;
      }
      var r := BigEndian(random[next..next + bytes]);
      r := Masked(r, bits);
      assert r == Candidate(random, next, range);
      next := next + bytes;
      if r < range {
        return Some(r), next;
      }
    }
  }

  /**
   * `secureCrypt($min, $max)`: `min` at once when `max < min`; otherwise draws until a masked
   * candidate is below `max - min` and returns `min` plus it.
   */
  method SecureCrypt(min: int, max: int, random: seq<Byte>, pos: nat) returns (r: Option<int>, next: nat)
    requires pos <= |random|
    ensures pos <= next <= |random|
    ensures max < min ==> r == Some(min) && next == pos
    ensures max >= min ==>
      var spec := FirstAccepted(random, pos, max - min);
      && (r.Some? <==> spec.Some?)
      && (r.Some? ==> r.value == min + spec.value.0 && next == spec.value.1)
    ensures max >= min && r.Some? ==> min <= r.value < max
    ensures max == min ==> r.None?
  {
    var range := max - min;
    if range < 0 {
      return Some(min), pos;
    }
    FirstAcceptedInRange(random, pos, range);
    if range == 0 {
      EmptyRangeNeverAccepts(random, pos);
    }
    var rnd;
    rnd, next := Draw(random, pos, range);
    if rnd.None? {
      return None, next;
    }
    r := Some(min + rnd.value);
  }

  /** The length of the token generate(length) builds: a non-positive length gives the empty token. */
  function TokenLength(length: int): (n: nat)
    ensures length <= 0 ==> n == 0
    ensures length > 0 ==> n == length
  {
    if length > 0 then length else 0
  }

  /** Drawing for the alnum pool reads one byte, keeps its low six bits and accepts values below 62. */
  lemma AlnumDraw()
    ensures BitLength(62) == 6 && ByteCount(62) == 1 && Pow2(6) == 64
  {
  }

  /** A byte below 62 is accepted as it is by a draw for the alnum pool. */
  lemma SmallByteAccepted(random: seq<Byte>, pos: nat)
    requires pos < |random| && random[pos] < 62
    ensures FirstAccepted(random, pos, 62) == Some((random[pos], pos + 1))
  {
    AlnumDraw();
    assert random[pos..pos + 1] == [random[pos]];
    assert BigEndian([random[pos]]) == random[pos] by {
      assert [random[pos]][..0] == [];
    }
  }

  /** The alnum character a draw below 62 selects. */
  function AlnumChar(index: Byte): char
    requires index < 62
  {
    AlnumPool();
    ALNUM[index]
  }

  /**
   * The characters the loop of generate appends for `n` positions from `pos`: for each, the
   * alnum character at the index the first accepted draw gives, with the position after the
   * last draw; None when the stream runs out first.
   */
  function Tokens(random: seq<Byte>, pos: nat, n: nat): (t: Option<(string, nat)>)
    requires pos <= |random|
    decreases n
  {
    if n == 0 then Some(([], pos))
    else
      match FirstAccepted(random, pos, 62)
      case None => None
      case Some((index, after)) =>
        FirstAcceptedInRange(random, pos, 62);
        Prepend([AlnumChar(index)], Tokens(random, after, n - 1))
  }

  /** A prefix in front of the token drawn after it. */
  function Prepend(prefix: string, t: Option<(string, nat)>): Option<(string, nat)> {
    match t
    case None => None
    case Some((rest, after)) => Some((prefix + rest, after))
  }

  /** One step of Tokens: the first accepted draw selects the first character. */
  lemma TokensStep(random: seq<Byte>, pos: nat, n: nat, index: nat, after: nat)
    requires pos <= |random| && n > 0 && FirstAccepted(random, pos, 62) == Some((index, after))
    ensures index < 62 && pos < after <= |random|
    ensures Tokens(random, pos, n) == Prepend([AlnumChar(index)], Tokens(random, after, n - 1))
  {
    FirstAcceptedInRange(random, pos, 62);
  }

  lemma PrependNothing(x: Option<(string, nat)>)
    ensures Prepend([], x) == x
  {
    if x.Some? {
      assert [] + x.value.0 == x.value.0;
    }
  }

  lemma PrependTwice(first: string, second: string, x: Option<(string, nat)>)
    ensures Prepend(first, Prepend(second, x)) == Prepend(first + second, x)
  {
    if x.Some? {
      assert first + (second + x.value.0) == (first + second) + x.value.0;
    }
  }

  /** After one more accepted draw, the drawn character moves from the tokens still to come to the prefix. */
  lemma TokensAfterDraw(random: seq<Byte>, pos: nat, n: nat, prefix: string, index: nat, after: nat)
    requires pos <= |random| && n > 0 && FirstAccepted(random, pos, 62) == Some((index, after))
    ensures index < 62 && after <= |random|
    ensures Prepend(prefix, Tokens(random, pos, n)) == Prepend(prefix + [AlnumChar(index)], Tokens(random, after, n - 1))
  {
    TokensStep(random, pos, n, index, after);
    PrependTwice(prefix, [AlnumChar(index)], Tokens(random, after, n - 1));
  }

  /** The characters drawn for `n` positions are exactly `n` letters or digits of the alnum pool, and the stream moves forward. */
  lemma {:induction false} TokensShape(random: seq<Byte>, pos: nat, n: nat)
    requires pos <= |random|
    ensures var t := Tokens(random, pos, n);
            t.Some? ==> |t.value.0| == n && pos <= t.value.1 <= |random|
                        && forall i :: 0 <= i < n ==> t.value.0[i] in ALNUM && LetterOrDigit(t.value.0[i])
    decreases n
  {
    if n > 0 {
      var first := FirstAccepted(random, pos, 62);
      if first.Some? {
        FirstAcceptedInRange(random, pos, 62);
        AlnumPool();
        TokensShape(random, first.value.1, n - 1);
      }
    }
  }

  /** A stream whose next `n` bytes are all below 62 always yields a token, and it reads exactly those bytes. */
  lemma {:induction false} TokensOfSmallBytes(random: seq<Byte>, pos: nat, n: nat)
    requires pos + n <= |random|
    requires forall k :: pos <= k < pos + n ==> random[k] < 62
    ensures var t := Tokens(random, pos, n);
            t.Some? && t.value.1 == pos + n && |t.value.0| == n
            && forall i :: 0 <= i < n ==> t.value.0[i] == AlnumChar(random[pos + i])
    decreases n
  {
    if n > 0 {
      SmallByteAccepted(random, pos);
      TokensStep(random, pos, n, random[pos], pos + 1);
      TokensOfSmallBytes(random, pos + 1, n - 1);
      var (rest, after) := Tokens(random, pos + 1, n - 1).value;
      var token := [AlnumChar(random[pos])] + rest;
      assert Tokens(random, pos, n) == Some((token, after));
      forall i | 0 <= i < n
        ensures token[i] == AlnumChar(random[pos + i])
      {
        if i > 0 {
          assert token[i] == rest[i - 1];
        }
      }
    }
  }

  /** The length generate() uses when called without one. */
  const DEFAULT_LENGTH: int := 25

  /**
   * `generate($length = 25)`: one alnum character per position, each indexed by secureCrypt(0, 62).
   * A call without a length, as `charge` makes, passes DEFAULT_LENGTH.
   * The token is the one Tokens draws for max(length, 0) positions.
   */
  method Generate(length: int, random: seq<Byte>, pos: nat) returns (token: Option<string>, next: nat)
    requires pos <= |random|
    ensures pos <= next <= |random|
    ensures token.Some? <==> Tokens(random, pos, TokenLength(length)).Some?
    ensures token.Some? ==> (token.value, next) == Tokens(random, pos, TokenLength(length)).value
  {
    var pool := GetPool("alnum");
    assert pool == ALNUM;
    AlnumPool();
    var max := |pool|;
    assert max == 62;
    ghost var n := TokenLength(length);
    var t: string := "";
    var i := 0;
    next := pos;
    PrependNothing(Tokens(random, pos, n));
    while i < length
      invariant 0 <= i <= n && |t| == i
      invariant pos <= next <= |random|
      invariant Tokens(random, pos, n) == Prepend(t, Tokens(random, next, n - i))
    {
      var index, after := SecureCrypt(0, max, random, next);
      if index.None? {
        return None, after;
      }
      assert FirstAccepted(random, next, 62) == Some((index.value, after));
      TokensAfterDraw(random, next, n - i, t, index.value, after);
      var c := pool[index.value];
      assert c == AlnumChar(index.value);
      t := t + [c];
      next := after;
      i := i + 1;
    }
    assert Tokens(random, next, 0) == Some(([], next));
    assert t + [] == t;
    token := Some(t);
  }
}
