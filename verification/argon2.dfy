/** pkg/hash/argon2.go: self-describing Argon2id password hashes.
    The Argon2id key-derivation function, base64 (RFC 4648 section 4 alphabet,
    without padding) and the random source are not modelled; they are inputs. */
module Argon2 {
  import opened Wrappers
  import opened ErrorChain
  import Text
  import Fmt

  type Byte = x: int | 0 <= x < 256
  type U32 = x: int | 0 <= x < 0x1_0000_0000
  type U8 = x: int | 0 <= x < 256

  const ErrIncorrectPassword := Sentinel("password is not correct")

  /** `argon2.Version`, 0x13. */
  const Version: nat := 19

  const DefaultTime: U32 := 1
  const DefaultMemory: U32 := 64 * 1024
  const DefaultThreads: U8 := 4
  const DefaultKeyLen: U32 := 32
  const DefaultSaltLen: U32 := 32

  datatype Hasher = Hasher(version: nat, time: U32, memory: U32, threads: U8, keyLen: U32, saltLen: U32)

  /** The functional options `Time`, `Memory`, `Threads`, `KeyLen`, `SaltLen`. */
  datatype HasherOption =
    | Time(time: U32)
    | Memory(memory: U32)
    | Threads(threads: U8)
    | KeyLen(keyLen: U32)
    | SaltLen(saltLen: U32)

  datatype Field = TimeField | MemoryField | ThreadsField | KeyLenField | SaltLenField

  function FieldOf(o: HasherOption): Field
  {
    match o
    case Time(_) => TimeField
    case Memory(_) => MemoryField
    case Threads(_) => ThreadsField
    case KeyLen(_) => KeyLenField
    case SaltLen(_) => SaltLenField
  }

  function ValueOf(o: HasherOption): nat
  {
    match o
    case Time(v) => v
    case Memory(v) => v
    case Threads(v) => v
    case KeyLen(v) => v
    case SaltLen(v) => v
  }

  function Get(h: Hasher, f: Field): nat
  {
    match f
    case TimeField => h.time
    case MemoryField => h.memory
    case ThreadsField => h.threads
    case KeyLenField => h.keyLen
    case SaltLenField => h.saltLen
  }

  /** Running one option: its own field takes the option's value, nothing else moves. */
  function Apply(h: Hasher, o: HasherOption): (r: Hasher)
    ensures Get(r, FieldOf(o)) == ValueOf(o)
    ensures forall f :: f != FieldOf(o) ==> Get(r, f) == Get(h, f)
    ensures r.version == h.version
  {
    match o
    case Time(v) => h.(time := v)
    case Memory(v) => h.(memory := v)
    case Threads(v) => h.(threads := v)
    case KeyLen(v) => h.(keyLen := v)
    case SaltLen(v) => h.(saltLen := v)
  }

  /** Options run in argument order. */
  function ApplyAll(h: Hasher, opts: seq<HasherOption>): Hasher
    decreases opts
  {
    if opts == [] then h else ApplyAll(Apply(h, opts[0]), opts[1..])
  }

  /** The value of field `f` chosen by the LAST option that sets it, or `default`. */
  function LastSetting(opts: seq<HasherOption>, f: Field, default: nat): nat
  {
    if opts == [] then default
    else if FieldOf(opts[|opts| - 1]) == f then ValueOf(opts[|opts| - 1])
    else LastSetting(opts[..|opts| - 1], f, default)
  }

  lemma {:induction false} ApplyAllSnoc(h: Hasher, opts: seq<HasherOption>, o: HasherOption)
    ensures ApplyAll(h, opts + [o]) == Apply(ApplyAll(h, opts), o)
    decreases opts
  {
    if opts != [] {
      assert (opts + [o])[1..] == opts[1..] + [o];
      ApplyAllSnoc(Apply(h, opts[0]), opts[1..], o);
    }
  }

  /** Whatever the starting hasher, each field ends with the last option's value. */
  lemma {:induction false} ApplyAllLastWins(h: Hasher, opts: seq<HasherOption>, f: Field)
    ensures Get(ApplyAll(h, opts), f) == LastSetting(opts, f, Get(h, f))
    ensures ApplyAll(h, opts).version == h.version
  {
    if opts != [] {
      var init, last := opts[..|opts| - 1], opts[|opts| - 1];
      assert opts == init + [last];
      ApplyAllSnoc(h, init, last);
      ApplyAllLastWins(h, init, f);
    }
  }

  /** `NewArgon2Hasher(opts...)`: the defaults, overridden by the options in order. */
  function NewArgon2Hasher(opts: seq<HasherOption>): (h: Hasher)
    ensures h.version == Version
    ensures h.time == LastSetting(opts, TimeField, DefaultTime)
    ensures h.memory == LastSetting(opts, MemoryField, DefaultMemory)
    ensures h.threads == LastSetting(opts, ThreadsField, DefaultThreads)
    ensures h.keyLen == LastSetting(opts, KeyLenField, DefaultKeyLen)
    ensures h.saltLen == LastSetting(opts, SaltLenField, DefaultSaltLen)
  {
    var base := Hasher(Version, DefaultTime, DefaultMemory, DefaultThreads, DefaultKeyLen, DefaultSaltLen);
    ApplyAllLastWins(base, opts, TimeField);
    ApplyAllLastWins(base, opts, MemoryField);
    ApplyAllLastWins(base, opts, ThreadsField);
    ApplyAllLastWins(base, opts, KeyLenField);
    ApplyAllLastWins(base, opts, SaltLenField);
    ApplyAll(base, opts)
  }

  /** The foreign primitives the hasher calls. */
  datatype Primitives = Primitives(
    idKey: (string, seq<Byte>, nat, nat, nat, nat) -> seq<Byte>, // argon2.IDKey(password, salt, time, memory, threads, keyLen)
    encode: seq<Byte> -> string,                               // base64.RawStdEncoding.EncodeToString
    decode: string -> Option<seq<Byte>>)                       // base64.RawStdEncoding.DecodeString

  /** What the round trip needs of the primitives: decoding inverts encoding,
      encoded text has no `$` (the base64 alphabet has none), and the KDF
      returns as many bytes as asked for. */
  ghost predicate WellBehaved(p: Primitives)
  {
    && (forall b :: p.decode(p.encode(b)) == Some(b))
    && (forall b :: '$' !in p.encode(b))
    && (forall pw, salt, t, m, th, n :: |p.idKey(pw, salt, t, m, th, n)| == n)
  }

  /** The cost segment `m=M,t=T,p=P`. */
  function ParamsSegment(memory: nat, time: nat, threads: nat): string
  {
    "m=" + (Fmt.Decimal(memory) + (",t=" + (Fmt.Decimal(time) + (",p=" + Fmt.Decimal(threads)))))
  }

  /** `fmt.Sprintf("$argon2id$v=%d$m=%d,t=%d,p=%d$%s$%s", ...)`, grouped
      from the right at each `$`. */
  function Encoded(version: nat, memory: nat, time: nat, threads: nat, salt64: string, key64: string): string
  {
    "$" + ("argon2id" + ("$" + (("v=" + Fmt.Decimal(version))
    + ("$" + (ParamsSegment(memory, time, threads) + ("$" + (salt64 + ("$" + key64))))))))
  }

  /** `Hash`: a failed read of the random source fails the call; otherwise the
      salt and the derived key are encoded together with the cost parameters. */
  function Hash(h: Hasher, p: Primitives, plain: string, random: Result<seq<Byte>, Error>): (r: Result<string, Error>)
    requires random.Ok? ==> |random.value| == h.saltLen
    ensures random.Err? ==> r.Err? && Is(r.error, random.error)
    ensures random.Ok? ==> r.Ok? && "$argon2id$v=" <= r.value
  {
    match random
    case Err(e) => Err(Wrapped("failed to generate salt", e))
    case Ok(salt) =>
      var key := p.idKey(plain, salt, h.time, h.memory, h.threads, h.keyLen);
      Ok(Encoded(h.version, h.memory, h.time, h.threads, p.encode(salt), p.encode(key)))
  }

  /** The fields `Check` reads back from a stored hash. */
  datatype Stored = Stored(memory: U32, time: U32, threads: U8, salt: seq<Byte>, key: seq<Byte>)

  /** One `lit%d` piece of a scan format: the literal, then a number below `limit`. */
  function ScanStep(s: string, lit: string, limit: nat): (r: Option<(nat, string)>)
    ensures r.Some? ==> r.value.0 < limit && lit <= s
    ensures !(lit <= s) ==> r.None?
  {
    match Fmt.ScanLiteral(s, lit)
    case None => None
    case Some(t) => Fmt.ScanUint(t, limit)
  }

  /** `Sscanf(part, "m=%d,t=%d,p=%d", &memory, &time, &threads)`; text after the
      last number is ignored. */
  function ScanParams(part: string): (r: Option<(U32, U32, U8)>)
    ensures r.Some? ==>
      && "m=" <= part
      && var m := Fmt.ScanUint(part[2..], 0x1_0000_0000);
      && m.Some? && m.value.0 == r.value.0 as int && ",t=" <= m.value.1
      && var t := Fmt.ScanUint(m.value.1[3..], 0x1_0000_0000);
      && t.Some? && t.value.0 == r.value.1 as int && ",p=" <= t.value.1
      && var th := Fmt.ScanUint(t.value.1[3..], 256);
      && th.Some? && th.value.0 == r.value.2 as int
    ensures !("m=" <= part) ==> r.None?
  {
    match ScanStep(part, "m=", 0x1_0000_0000)
    case None => None
    case Some((m, s1)) =>
      match ScanStep(s1, ",t=", 0x1_0000_0000)
      case None => None
      case Some((t, s2)) =>
        match ScanStep(s2, ",p=", 256)
        case None => None
        case Some((th, _)) => Some((m as U32, t as U32, th as U8))
  }

  /** The decoding half of `Check`: parameters from part 3, salt from part 4,
      key from part 5. Every failure is wrapped with its own context. */
  function ReadStored(p: Primitives, parts: seq<string>): (r: Result<Stored, Error>)
    requires |parts| >= 6
    ensures r.Err? ==> r.error.Wrapped? && r.error != ErrIncorrectPassword
    ensures r.Err? <==> ScanParams(parts[3]).None? || p.decode(parts[4]).None? || p.decode(parts[5]).None?
  {
    match ScanParams(parts[3])
    case None => Err(Wrapped("failed to parse hash", Opaque("input does not match format")))
    case Some((m, t, th)) =>
      match p.decode(parts[4])
      case None => Err(Wrapped("failed to decode salt", Opaque("illegal base64 data")))
      case Some(salt) =>
        match p.decode(parts[5])
        case None => Err(Wrapped("failed to decode hash", Opaque("illegal base64 data")))
        case Some(key) => Ok(Stored(m, t, th, salt, key))
  }

  /** The key `plain` derives under the stored salt and costs, as long as the stored key. */
  function Recompute(p: Primitives, plain: string, st: Stored): seq<Byte>
  {
    p.idKey(plain, st.salt, st.time, st.memory, st.threads, |st.key|)
  }

  /** `Check`: `None` is Go's nil. The hasher's own settings are never read;
      strings with fewer than six `$`-separated parts are outside its domain
      (the Go code indexes parts 3 to 5 unchecked). */
  function Check(h: Hasher, p: Primitives, plain: string, hash: string): (r: Option<Error>)
    requires |Text.Split(hash, '$')| >= 6
    ensures r.None? <==>
      ReadStored(p, Text.Split(hash, '$')).Ok?
      && Recompute(p, plain, ReadStored(p, Text.Split(hash, '$')).value) == ReadStored(p, Text.Split(hash, '$')).value.key
    ensures r == Some(ErrIncorrectPassword) <==>
      ReadStored(p, Text.Split(hash, '$')).Ok?
      && Recompute(p, plain, ReadStored(p, Text.Split(hash, '$')).value) != ReadStored(p, Text.Split(hash, '$')).value.key
  {
    var parts := Text.Split(hash, '$');
    match ReadStored(p, parts)
    case Err(e) => Some(e)
    case Ok(st) => if Recompute(p, plain, st) == st.key then None else Some(ErrIncorrectPassword)
  }

  // ---------------------------------------------------------------- properties

  lemma DigitsHaveNoDollar(s: string)
    requires Fmt.AllDigits(s)
    ensures '$' !in s
  {
  }

  /** The six `$`-separated parts of an encoded hash. */
  function EncodedParts(version: nat, memory: nat, time: nat, threads: nat, salt64: string, key64: string): seq<string>
  {
    ["", "argon2id", "v=" + Fmt.Decimal(version), ParamsSegment(memory, time, threads), salt64, key64]
  }

  /** The last three `$`-separated parts: costs, salt and key. */
  lemma SplitTail(seg: string, salt64: string, key64: string)
    requires '$' !in seg && '$' !in salt64 && '$' !in key64
    ensures Text.Split(seg + ("$" + (salt64 + ("$" + key64))), '$') == [seg, salt64, key64]
  {
    Text.SplitWord(key64, '$', "");
    Text.SplitWord(salt64, '$', key64);
    assert Text.Split(salt64 + ("$" + key64), '$') == [salt64, key64];
    Text.SplitWord(seg, '$', salt64 + ("$" + key64));
  }

  /** Splitting an encoded hash on `$` gives back exactly its six parts, the first empty. */
  lemma EncodedSplit(version: nat, memory: nat, time: nat, threads: nat, salt64: string, key64: string)
    requires '$' !in salt64 && '$' !in key64
    ensures Text.Split(Encoded(version, memory, time, threads, salt64, key64), '$')
         == EncodedParts(version, memory, time, threads, salt64, key64)
  {
    var dv, dm, dt, dp := Fmt.Decimal(version), Fmt.Decimal(memory), Fmt.Decimal(time), Fmt.Decimal(threads);
    DigitsHaveNoDollar(dv);
    DigitsHaveNoDollar(dm);
    DigitsHaveNoDollar(dt);
    DigitsHaveNoDollar(dp);
    var vpart, seg := "v=" + dv, ParamsSegment(memory, time, threads);
    assert '$' !in vpart;
    assert '$' !in seg;
    var r3 := seg + ("$" + (salt64 + ("$" + key64)));
    SplitTail(seg, salt64, key64);
    var r2 := vpart + ("$" + r3);
    Text.SplitWord(vpart, '$', r3);
    assert Text.Split(r2, '$') == [vpart, seg, salt64, key64];
    var r1 := "argon2id" + ("$" + r2);
    Text.SplitWord("argon2id", '$', r2);
    Text.SplitWord("", '$', r1);
    assert "" + ("$" + r1) == "$" + r1;
  }

  /** One `lit%d` step of the cost format reads back the number written after the literal. */
  lemma ScanField(lit: string, n: nat, limit: nat, rest: string)
    requires n < limit
    requires rest == [] || !Fmt.IsDigit(rest[0])
    ensures ScanStep(lit + (Fmt.Decimal(n) + rest), lit, limit) == Some((n, rest))
  {
    Fmt.ScanLiteralOf(lit, Fmt.Decimal(n) + rest);
    Fmt.ScanDecimal(n, limit, rest);
  }

  /** Reading back the cost segment returns the numbers written into it. */
  lemma ScanParamsSegment(memory: U32, time: U32, threads: U8)
    ensures ScanParams(ParamsSegment(memory, time, threads)) == Some((memory, time, threads))
  {
    var dp := Fmt.Decimal(threads);
    var s2 := ",p=" + dp;
    var s1 := ",t=" + (Fmt.Decimal(time) + s2);
    assert s1[0] == ',' && s2[0] == ',';
    ScanField("m=", memory, 0x1_0000_0000, s1);
    ScanField(",t=", time, 0x1_0000_0000, s2);
    ScanField(",p=", threads, 256, "");
    assert dp + "" == dp;
  }

  /** Every successful `Hash` has the documented layout. */
  lemma HashLayout(h: Hasher, p: Primitives, plain: string, salt: seq<Byte>)
    requires WellBehaved(p)
    requires |salt| == h.saltLen
    ensures Hash(h, p, plain, Ok(salt)).Ok?
    ensures var key := p.idKey(plain, salt, h.time, h.memory, h.threads, h.keyLen);
      var parts := Text.Split(Hash(h, p, plain, Ok(salt)).value, '$');
      && parts == EncodedParts(h.version, h.memory, h.time, h.threads, p.encode(salt), p.encode(key))
      && |parts| == 6 && parts[0] == "" && parts[1] == "argon2id"
      && parts[2] == "v=" + Fmt.Decimal(h.version)
      && parts[4] == p.encode(salt) && parts[5] == p.encode(key)
  {
    var key := p.idKey(plain, salt, h.time, h.memory, h.threads, h.keyLen);
    EncodedSplit(h.version, h.memory, h.time, h.threads, p.encode(salt), p.encode(key));
  }

  /** What `Check` reads back from a fresh hash is the salt, costs and key that built it. */
  lemma ReadBackHash(h: Hasher, p: Primitives, plain: string, salt: seq<Byte>)
    requires WellBehaved(p)
    requires |salt| == h.saltLen
    ensures Hash(h, p, plain, Ok(salt)).Ok?
    ensures var parts := Text.Split(Hash(h, p, plain, Ok(salt)).value, '$');
      |parts| >= 6
      && ReadStored(p, parts)
         == Ok(Stored(h.memory, h.time, h.threads, salt, p.idKey(plain, salt, h.time, h.memory, h.threads, h.keyLen)))
  {
    HashLayout(h, p, plain, salt);
    ScanParamsSegment(h.memory, h.time, h.threads);
  }

  /** Round trip: a password verifies against its own hash, whatever hasher
      (with whatever settings) performs the check. */
  lemma HashThenCheck(h: Hasher, checker: Hasher, p: Primitives, plain: string, salt: seq<Byte>)
    requires WellBehaved(p)
    requires |salt| == h.saltLen
    ensures Hash(h, p, plain, Ok(salt)).Ok?
    ensures |Text.Split(Hash(h, p, plain, Ok(salt)).value, '$')| >= 6
    ensures Check(checker, p, plain, Hash(h, p, plain, Ok(salt)).value) == None
  {
    ReadBackHash(h, p, plain, salt);
  }

  /** A password whose derived key differs from the stored one is rejected
      with `ErrIncorrectPassword`, and only with it. */
  lemma CheckOtherPassword(h: Hasher, checker: Hasher, p: Primitives, plain: string, other: string, salt: seq<Byte>)
    requires WellBehaved(p)
    requires |salt| == h.saltLen
    requires p.idKey(other, salt, h.time, h.memory, h.threads, h.keyLen)
          != p.idKey(plain, salt, h.time, h.memory, h.threads, h.keyLen)
    ensures Hash(h, p, plain, Ok(salt)).Ok?
    ensures |Text.Split(Hash(h, p, plain, Ok(salt)).value, '$')| >= 6
    ensures Check(checker, p, other, Hash(h, p, plain, Ok(salt)).value) == Some(ErrIncorrectPassword)
  {
    ReadBackHash(h, p, plain, salt);
  }

  /** Hashes built from different salts are different strings. */
  lemma DifferentSaltsDifferentHashes(h: Hasher, p: Primitives, plain: string, salt1: seq<Byte>, salt2: seq<Byte>)
    requires WellBehaved(p)
    requires |salt1| == h.saltLen && |salt2| == h.saltLen
    requires salt1 != salt2
    ensures Hash(h, p, plain, Ok(salt1)).Ok? && Hash(h, p, plain, Ok(salt2)).Ok?
    ensures Hash(h, p, plain, Ok(salt1)).value != Hash(h, p, plain, Ok(salt2)).value
  {
    HashLayout(h, p, plain, salt1);
    HashLayout(h, p, plain, salt2);
    assert p.decode(p.encode(salt1)) == Some(salt1);
    assert p.decode(p.encode(salt2)) == Some(salt2);
  }

  /** `Check` never looks at the algorithm name, the version, or past the sixth part. */
  lemma CheckIgnoresHeader(h: Hasher, p: Primitives, plain: string, hash1: string, hash2: string)
    requires |Text.Split(hash1, '$')| >= 6 && |Text.Split(hash2, '$')| >= 6
    requires Text.Split(hash1, '$')[3..6] == Text.Split(hash2, '$')[3..6]
    ensures Check(h, p, plain, hash1) == Check(h, p, plain, hash2)
  {
    var a, b := Text.Split(hash1, '$'), Text.Split(hash2, '$');
    assert a[3] == a[3..6][0] && a[4] == a[3..6][1] && a[5] == a[3..6][2];
    assert b[3] == b[3..6][0] && b[4] == b[3..6][1] && b[5] == b[3..6][2];
  }
}
