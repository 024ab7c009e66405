/** `CacheService`: responses kept in a key-value store with an expiry, under
    keys `resume_enhancer:<prefix>:<hex digest of prefix:input:mode>`. When
    the store is switched off nothing is read or written; store errors are
    swallowed: a read becomes a miss and a write or clear does nothing. The
    digest (SHA-256 of the platform encoding), the clock (seconds) and store
    failures are parameters. */
module CacheService {
  import opened Wrappers
  import opened Strings
  import opened Numeric
  import opened JavaText

  const Namespace: string := "resume_enhancer:"
  const GptPrefix: string := "gpt"
  const EnhancementPrefix: string := "enhancement"
  const TranslationPrefix: string := "translation"

  // ------------------------------------------------------------ hex encoding

  /** What the loop appends for one byte: `Integer.toHexString(0xff & b)`,
      with a '0' in front when that is a single digit. */
  function ByteHex(b: byte): (h: string)
    ensures |h| == 2 && IsLowerHexDigit(h[0]) && IsLowerHexDigit(h[1])
    ensures HexValue(h[0]) * 16 + HexValue(h[1]) == b as int
  {
    var n := b as int;
    var hex := IntegerToHexString(n);
    HexValueOfDigit(n / 16);
    HexValueOfDigit(n % 16);
    if n < 16 then
      assert hex == [HexDigit(n)];
      assert HexValue('0') == 0;
      "0" + hex
    else
      assert IntegerToHexString(n / 16) == [HexDigit(n / 16)];
      assert hex == [HexDigit(n / 16)] + [HexDigit(n % 16)];
      hex
  }

  /** The whole digest in hex, byte by byte. */
  function HexOf(hash: seq<byte>): (s: string)
    ensures |s| == 2 * |hash|
  {
    if hash == [] then [] else HexOf(hash[..|hash| - 1]) + ByteHex(hash[|hash| - 1])
  }

  /** Only lower-case hex digits appear. */
  lemma {:induction false} HexOfDigits(hash: seq<byte>)
    ensures forall k :: 0 <= k < |HexOf(hash)| ==> IsLowerHexDigit(HexOf(hash)[k])
  {
    if hash != [] {
      var init := hash[..|hash| - 1];
      HexOfDigits(init);
      var t, b := HexOf(init), ByteHex(hash[|hash| - 1]);
      assert HexOf(hash) == t + b;
      forall k | 0 <= k < |t + b| ensures IsLowerHexDigit((t + b)[k]) {
        if k < |t| { assert (t + b)[k] == t[k]; } else { assert (t + b)[k] == b[k - |t|]; }
      }
    }
  }

  /** The value of a lower-case hex digit, and 0 for any other character. */
  function DigitValue(c: char): (d: nat)
    ensures d < 16
  {
    if IsLowerHexDigit(c) then HexValue(c) else 0
  }

  /** The byte two hex digits denote. */
  function PairByte(hi: char, lo: char): byte {
    (DigitValue(hi) * 16 + DigitValue(lo)) as byte
  }

  /** Reads two hex digits per byte (the inverse of HexOf). */
  function HexDecode(s: string): seq<byte> {
    if |s| < 2 then [] else HexDecode(s[..|s| - 2]) + [PairByte(s[|s| - 2], s[|s| - 1])]
  }

  /** Each byte becomes exactly two digits, so the digits give the digest back. */
  lemma DecodeAppendByte(t: string, b: byte)
    ensures HexDecode(t + ByteHex(b)) == HexDecode(t) + [b]
  {
    var s := t + ByteHex(b);
    assert s[..|s| - 2] == t;
    assert s[|s| - 2] == ByteHex(b)[0] && s[|s| - 1] == ByteHex(b)[1];
  }

  lemma {:induction false} HexRoundTrip(hash: seq<byte>)
    ensures HexDecode(HexOf(hash)) == hash
  {
    if hash != [] {
      var init, last := hash[..|hash| - 1], hash[|hash| - 1];
      var t := HexOf(init);
      HexRoundTrip(init);
      DecodeAppendByte(t, last);
      assert HexOf(hash) == t + ByteHex(last);
      InitLast(hash);
    }
  }

  lemma HexInjective(h1: seq<byte>, h2: seq<byte>)
    requires HexOf(h1) == HexOf(h2)
    ensures h1 == h2
  {
    HexRoundTrip(h1);
    HexRoundTrip(h2);
  }

  // ------------------------------------------------------------ keys

  function Combined(prefix: string, input: string, mode: string): string {
    prefix + ":" + input + ":" + mode
  }

  /** What follows the prefix in a key: the hex digest, or, if hashing fails,
      the absolute value of `(input + mode).hashCode()`. */
  function KeyTail(digest: string -> Option<seq<byte>>, prefix: string, input: string, mode: string): string {
    match digest(Combined(prefix, input, mode))
    case Some(hash) => HexOf(hash)
    case None => LongToString(MathAbs(JavaHashCode(input + mode)))
  }

  /** `generateCacheKey`. */
  function CacheKey(digest: string -> Option<seq<byte>>, prefix: string, input: string, mode: string): string {
    Namespace + prefix + ":" + KeyTail(digest, prefix, input, mode)
  }

  /** Keys built with different prefixes never coincide, whatever the inputs. */
  lemma PrefixesSeparateKeys(digest: string -> Option<seq<byte>>, p1: string, i1: string, m1: string, p2: string, i2: string, m2: string)
    requires ':' !in p1 && ':' !in p2 && p1 != p2
    ensures CacheKey(digest, p1, i1, m1) != CacheKey(digest, p2, i2, m2)
  {
    DistinctTagsDistinctKeys(Namespace, p1, KeyTail(digest, p1, i1, m1), p2, KeyTail(digest, p2, i2, m2), ':');
  }

  lemma PrefixesDiffer()
    ensures ':' !in GptPrefix && ':' !in EnhancementPrefix && ':' !in TranslationPrefix
    ensures GptPrefix != EnhancementPrefix && GptPrefix != TranslationPrefix && EnhancementPrefix != TranslationPrefix
  {
    assert GptPrefix[0] == 'g' && EnhancementPrefix[0] == 'e' && TranslationPrefix[0] == 't';
  }

  /** In particular the three caches the services use are disjoint. */
  lemma ServiceCachesDisjoint(digest: string -> Option<seq<byte>>, i1: string, m1: string, i2: string, m2: string)
    ensures CacheKey(digest, GptPrefix, i1, m1) != CacheKey(digest, EnhancementPrefix, i2, m2)
    ensures CacheKey(digest, GptPrefix, i1, m1) != CacheKey(digest, TranslationPrefix, i2, m2)
    ensures CacheKey(digest, EnhancementPrefix, i1, m1) != CacheKey(digest, TranslationPrefix, i2, m2)
  {
    PrefixesDiffer();
    PrefixesSeparateKeys(digest, GptPrefix, i1, m1, EnhancementPrefix, i2, m2);
    PrefixesSeparateKeys(digest, GptPrefix, i1, m1, TranslationPrefix, i2, m2);
    PrefixesSeparateKeys(digest, EnhancementPrefix, i1, m1, TranslationPrefix, i2, m2);
  }

  /** The hex form of a key: the namespace, the prefix, and two digits per
      byte of the digest. */
  lemma HexKeyShape(digest: string -> Option<seq<byte>>, prefix: string, input: string, mode: string)
    requires digest(Combined(prefix, input, mode)).Some?
    ensures var key := CacheKey(digest, prefix, input, mode);
            var n := |Namespace| + |prefix| + 1;
            StartsWith(key, Namespace + prefix + ":")
            && |key| == n + 2 * |digest(Combined(prefix, input, mode)).value|
            && HexDecode(key[n..]) == digest(Combined(prefix, input, mode)).value
  {
    var hash := digest(Combined(prefix, input, mode)).value;
    var key := CacheKey(digest, prefix, input, mode);
    var n := |Namespace| + |prefix| + 1;
    assert key[n..] == HexOf(hash);
    HexRoundTrip(hash);
  }

  /** The input under which an enhancement is cached; a missing job
      description counts as the empty one. */
  function EnhancementInput(resumeId: int, jobDescription: Option<string>): string {
    LongToString(resumeId) + "|" + jobDescription.GetOr("")
  }

  /** The input under which a translation is cached. */
  function TranslationInput(text: string, targetLang: string): string {
    text + "|" + targetLang
  }

  /** The resume id renders without a '|', so the enhancement input tells
      the id and the job description apart; a missing description and an
      empty one share a key. */
  lemma EnhancementInputSeparates(a: int, ja: Option<string>, b: int, jb: Option<string>)
    ensures EnhancementInput(a, ja) == EnhancementInput(b, jb) <==> a == b && ja.GetOr("") == jb.GetOr("")
    ensures EnhancementInput(a, None) == EnhancementInput(a, Some(""))
  {
    if EnhancementInput(a, ja) == EnhancementInput(b, jb) {
      LongToStringAlphabet(a);
      LongToStringAlphabet(b);
      SeparatorSplitsUniquely(LongToString(a), ja.GetOr(""), LongToString(b), jb.GetOr(""), '|');
      LongToStringInjective(a, b);
    }
  }

  /** The separator is not escaped: a '|' inside the text makes two
      different requests share a translation key. */
  lemma TranslationInputsCollide()
    ensures TranslationInput("a|b", "c") == TranslationInput("a", "b|c")
  {
  }

  // ------------------------------------------------------------ the store

  datatype Entry = Entry(value: string, expiresAt: int)

  /** A read at time `now`: the value, if the key is there and not expired. */
  function Lookup(store: map<string, Entry>, key: string, now: int): Option<string> {
    if key in store && now < store[key].expiresAt then Some(store[key].value) else None
  }

  /** A write with a time to live; the store refuses a non-positive one. */
  function Put(store: map<string, Entry>, key: string, value: string, now: int, ttlSeconds: int): map<string, Entry> {
    if ttlSeconds <= 0 then store else store[key := Entry(value, now + ttlSeconds)]
  }

  /** `delete(keys(p + "*"))`: every key starting with `p` goes. */
  function ClearPrefix(store: map<string, Entry>, p: string): (r: map<string, Entry>)
    ensures forall k :: k in r <==> k in store && !StartsWith(k, p)
    ensures forall k :: k in r ==> r[k] == store[k]
  {
    map k | k in store && !StartsWith(k, p) :: store[k]
  }

  /** A value written is read back until it expires; other keys are untouched. */
  lemma PutThenLookup(store: map<string, Entry>, key: string, value: string, now: int, ttlSeconds: int, t: int, other: string)
    requires ttlSeconds > 0
    ensures now <= t < now + ttlSeconds ==> Lookup(Put(store, key, value, now, ttlSeconds), key, t) == Some(value)
    ensures t >= now + ttlSeconds ==> Lookup(Put(store, key, value, now, ttlSeconds), key, t) == None
    ensures other != key ==> Lookup(Put(store, key, value, now, ttlSeconds), other, t) == Lookup(store, other, t)
  {
  }

  class CacheService {
    var store: map<string, Entry>
    /** `app.cache.enable-redis`. */
    const enabled: bool
    /** `app.cache.gpt-cache-hours`, 24 unless configured. */
    const gptCacheHours: int
    const digest: string -> Option<seq<byte>>

    constructor (enabled: bool, gptCacheHours: int, digest: string -> Option<seq<byte>>)
      ensures this.enabled == enabled && this.gptCacheHours == gptCacheHours && this.digest == digest
      ensures store == map[]
    {
      this.enabled := enabled;
      this.gptCacheHours := gptCacheHours;
      this.digest := digest;
      store := map[];
    }

    function TtlSeconds(): int {
      gptCacheHours * 3600
    }

    /** `generateCacheKey`, with its hex loop. */
    method GenerateCacheKey(prefix: string, input: string, mode: string) returns (key: string)
      ensures key == CacheKey(digest, prefix, input, mode)
    {
      var combined := prefix + ":" + input + ":" + mode;
      var d := digest(combined);
      if d.None? {
        return Namespace + prefix + ":" + LongToString(MathAbs(JavaHashCode(input + mode)));
      }
      var hash := d.value;
      var hexString := "";
      for i := 0 to |hash|
        invariant hexString == HexOf(hash[..i])
      {
        assert hash[..i + 1][..i] == hash[..i];
        var hex := IntegerToHexString(hash[i] as int);
        if |hex| == 1 {
          hexString := hexString + "0";
        }
        hexString := hexString + hex;
      }
      assert hash[..|hash|] == hash;
      key := Namespace + prefix + ":" + hexString;
    }

    /** A read under one prefix. */
    method Read(prefix: string, input: string, mode: string, now: int, storeDown: bool) returns (r: Option<string>)
      ensures r == if !enabled || storeDown then None else Lookup(store, CacheKey(digest, prefix, input, mode), now)
    {
      if !enabled || storeDown {
        return None;
      }
      var key := GenerateCacheKey(prefix, input, mode);
      r := Lookup(store, key, now);
    }

    /** A write under one prefix; a null response is never stored. */
    method Write(prefix: string, input: string, mode: string, response: Option<string>, now: int, storeDown: bool)
      modifies this
      ensures store == if !enabled || response.None? || storeDown then old(store)
                       else Put(old(store), CacheKey(digest, prefix, input, mode), response.value, now, TtlSeconds())
    {
      if !enabled || response.None? || storeDown {
        return;
      }
      var key := GenerateCacheKey(prefix, input, mode);
      store := Put(store, key, response.value, now, TtlSeconds());
    }

    /** `getCachedGptResponse`. */
    method GetCachedGptResponse(input: string, mode: string, now: int, storeDown: bool) returns (r: Option<string>)
      ensures r == if !enabled || storeDown then None else Lookup(store, CacheKey(digest, GptPrefix, input, mode), now)
    {
      r := Read(GptPrefix, input, mode, now, storeDown);
    }

    /** `cacheGptResponse`. */
    method CacheGptResponse(input: string, mode: string, response: Option<string>, now: int, storeDown: bool)
      modifies this
      ensures store == if !enabled || response.None? || storeDown then old(store)
                       else Put(old(store), CacheKey(digest, GptPrefix, input, mode), response.value, now, TtlSeconds())
    {
      Write(GptPrefix, input, mode, response, now, storeDown);
    }

    /** `getCachedEnhancement`. */
    method GetCachedEnhancement(resumeId: int, jobDescription: Option<string>, mode: string, now: int, storeDown: bool) returns (r: Option<string>)
      ensures r == if !enabled || storeDown then None
                   else Lookup(store, CacheKey(digest, EnhancementPrefix, EnhancementInput(resumeId, jobDescription), mode), now)
    {
      r := Read(EnhancementPrefix, EnhancementInput(resumeId, jobDescription), mode, now, storeDown);
    }

    /** `cacheEnhancement`. */
    method CacheEnhancement(resumeId: int, jobDescription: Option<string>, mode: string, response: Option<string>, now: int, storeDown: bool)
      modifies this
      ensures store == if !enabled || response.None? || storeDown then old(store)
                       else Put(old(store), CacheKey(digest, EnhancementPrefix, EnhancementInput(resumeId, jobDescription), mode),
                                response.value, now, TtlSeconds())
    {
      Write(EnhancementPrefix, EnhancementInput(resumeId, jobDescription), mode, response, now, storeDown);
    }

    /** `getCachedTranslation`. */
    method GetCachedTranslation(text: string, targetLang: string, mode: string, now: int, storeDown: bool) returns (r: Option<string>)
      ensures r == if !enabled || storeDown then None
                   else Lookup(store, CacheKey(digest, TranslationPrefix, TranslationInput(text, targetLang), mode), now)
    {
      r := Read(TranslationPrefix, TranslationInput(text, targetLang), mode, now, storeDown);
    }

    /** `cacheTranslation`. */
    method CacheTranslation(text: string, targetLang: string, mode: string, response: Option<string>, now: int, storeDown: bool)
      modifies this
      ensures store == if !enabled || response.None? || storeDown then old(store)
                       else Put(old(store), CacheKey(digest, TranslationPrefix, TranslationInput(text, targetLang), mode),
                                response.value, now, TtlSeconds())
    {
      Write(TranslationPrefix, TranslationInput(text, targetLang), mode, response, now, storeDown);
    }

    /** `clearCache`; the pattern is taken literally. */
    method ClearCache(pattern: string, storeDown: bool)
      modifies this
      ensures store == if !enabled || storeDown then old(store) else ClearPrefix(old(store), pattern)
    {
      if !enabled || storeDown {
        return;
      }
      store := ClearPrefix(store, pattern);
    }

    /** A GPT response cached and read back before it expires. */
    method CacheThenGet(input: string, mode: string, response: string, now: int, later: int) returns (r: Option<string>)
      requires enabled && gptCacheHours > 0 && now <= later < now + TtlSeconds()
      modifies this
      ensures r == Some(response)
    {
      CacheGptResponse(input, mode, Some(response), now, false);
      r := GetCachedGptResponse(input, mode, later, false);
    }
  }
}
