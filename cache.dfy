/**
 * The whole-request audio cache: a key derived from the request (the JSON
 * serialisation of the trimmed text, voice, speed and language, hashed and
 * written as lowercase hex), and a persistent store of entries by key.
 *
 * The digest (UTF-8 encoding followed by SHA-256) and the JSON text of the
 * speed number are foreign calls and appear as function parameters.
 */
module Cache {
  import opened Wrappers
  import opened Strings
  import opened Types

  // ----- JSON string literals -----

  /** A lowercase hexadecimal digit, the one whose value is `d`. */
  function HexDigit(d: nat): (c: char)
    requires d < 16
    ensures '0' <= c <= '9' || 'a' <= c <= 'f'
    ensures HexValue(c) == Some(d)
  {
    "0123456789abcdef"[d]
  }

  /** The value of a lowercase hexadecimal digit. */
  function HexValue(c: char): Option<nat> {
    if '0' <= c <= '9' then Some(c as int - '0' as int)
    else if 'a' <= c <= 'f' then Some(c as int - 'a' as int + 10)
    else None
  }

  /** How `JSON.stringify` writes one character inside a string literal. */
  function EscapeChar(c: char): (e: string)
    ensures |e| >= 1
  {
    if c == '"' then "\\\""
    else if c == '\\' then "\\\\"
    else if c == '\U{8}' then "\\b"
    else if c == '\t' then "\\t"
    else if c == '\n' then "\\n"
    else if c == '\U{C}' then "\\f"
    else if c == '\r' then "\\r"
    else if c < ' ' then "\\u00" + [HexDigit(c as int / 16), HexDigit(c as int % 16)]
    else [c]
  }

  /** The escaped body of a JSON string literal. */
  function Escaped(s: string): string {
    if s == [] then [] else EscapeChar(s[0]) + Escaped(s[1..])
  }

  /** `JSON.stringify` of a string: the escaped body between double quotes. */
  function JsonString(s: string): string {
    "\"" + Escaped(s) + "\""
  }

  /** The character a JSON escape sequence `\x` stands for, for the one-letter escapes. */
  function ShortEscape(x: char): Option<char> {
    if x == '"' then Some('"')
    else if x == '\\' then Some('\\')
    else if x == 'b' then Some('\U{8}')
    else if x == 't' then Some('\t')
    else if x == 'n' then Some('\n')
    else if x == 'f' then Some('\U{C}')
    else if x == 'r' then Some('\r')
    else None
  }

  function Prepend(c: char, r: Option<(string, string)>): Option<(string, string)> {
    if r.Some? then Some(([c] + r.value.0, r.value.1)) else None
  }

  /** The value of four hexadecimal digits as a character below U+D800, if they are that. */
  function Hex4(x: string): Option<char>
    requires |x| == 4
  {
    var d0, d1, d2, d3 := HexValue(x[0]), HexValue(x[1]), HexValue(x[2]), HexValue(x[3]);
    if d0.Some? && d1.Some? && d2.Some? && d3.Some? then
      var v := ((d0.value * 16 + d1.value) * 16 + d2.value) * 16 + d3.value;
      if v < 0xD800 then Some(v as char) else None
    else None
  }

  /**
   * Reads the body of a JSON string literal up to its closing quote: the
   * characters it stands for and what follows the quote.
   */
  function ReadBody(x: string): Option<(string, string)>
    decreases |x|
  {
    if x == [] then None
    else if x[0] == '"' then Some(([], x[1..]))
    else if x[0] != '\\' then Prepend(x[0], ReadBody(x[1..]))
    else if |x| < 2 then None
    else if ShortEscape(x[1]).Some? then Prepend(ShortEscape(x[1]).value, ReadBody(x[2..]))
    else if x[1] == 'u' && |x| >= 6 && Hex4(x[2..6]).Some? then Prepend(Hex4(x[2..6]).value, ReadBody(x[6..]))
    else None
  }

  /** Reads a JSON string literal from the front of `x`. */
  function ReadJsonString(x: string): Option<(string, string)> {
    if x != [] && x[0] == '"' then ReadBody(x[1..]) else None
  }

  /** A control character without a one-letter escape is written as `\u00` and two hex digits. */
  predicate UnicodeEscaped(c: char) {
    c < ' ' && c != '\U{8}' && c != '\t' && c != '\n' && c != '\U{C}' && c != '\r'
  }

  /** A character with a one-letter escape. */
  predicate ShortEscaped(c: char) {
    c == '"' || c == '\\' || c == '\U{8}' || c == '\t' || c == '\n' || c == '\U{C}' || c == '\r'
  }

  /** Four hex digits `00hl` stand for the character `16h + l`. */
  lemma Hex4Low(hi: nat, lo: nat)
    requires hi < 2 && lo < 16
    ensures Hex4(['0', '0', HexDigit(hi), HexDigit(lo)]) == Some((hi * 16 + lo) as char)
  {
  }

  lemma ReadUnicodeEscape(c: char, y: string)
    requires UnicodeEscaped(c)
    ensures ReadBody(EscapeChar(c) + y) == Prepend(c, ReadBody(y))
  {
    var hi, lo := c as int / 16, c as int % 16;
    var digits := ['0', '0', HexDigit(hi), HexDigit(lo)];
    var x := EscapeChar(c) + y;
    assert EscapeChar(c) == "\\u" + digits;
    assert x == ['\\', 'u'] + digits + y;
    Hex4Low(hi, lo);
    assert x[2..6] == digits && x[6..] == y;
    assert ShortEscape(x[1]) == None;
  }

  lemma ReadShortEscape(c: char, y: string)
    requires ShortEscaped(c)
    ensures ReadBody(EscapeChar(c) + y) == Prepend(c, ReadBody(y))
  {
    var x := EscapeChar(c) + y;
    assert x[2..] == y;
  }

  lemma ReadPlainChar(c: char, y: string)
    requires !UnicodeEscaped(c) && !ShortEscaped(c)
    ensures ReadBody(EscapeChar(c) + y) == Prepend(c, ReadBody(y))
  {
    var x := EscapeChar(c) + y;
    assert x == [c] + y;
    assert x[1..] == y;
  }

  /** Reading one escaped character gives that character back. */
  lemma ReadEscapeChar(c: char, y: string)
    ensures ReadBody(EscapeChar(c) + y) == Prepend(c, ReadBody(y))
  {
    if UnicodeEscaped(c) {
      ReadUnicodeEscape(c, y);
    } else if ShortEscaped(c) {
      ReadShortEscape(c, y);
    } else {
      ReadPlainChar(c, y);
    }
  }

  lemma {:induction false} ReadEscaped(s: string, rest: string)
    ensures ReadBody(Escaped(s) + "\"" + rest) == Some((s, rest))
    decreases |s|
  {
    var x := Escaped(s) + "\"" + rest;
    if s == [] {
      assert x == "\"" + rest && x[1..] == rest;
    } else {
      var t := Escaped(s[1..]) + "\"" + rest;
      ReadEscaped(s[1..], rest);
      assert x == EscapeChar(s[0]) + t;
      ReadEscapeChar(s[0], t);
      assert [s[0]] + s[1..] == s;
    }
  }

  /** Reading back a serialised string literal gives the string and what followed it. */
  lemma JsonStringRoundTrip(s: string, rest: string)
    ensures ReadJsonString(JsonString(s) + rest) == Some((s, rest))
  {
    ReadEscaped(s, rest);
    assert (JsonString(s) + rest)[1..] == Escaped(s) + "\"" + rest;
  }

  /** A string literal followed by anything determines both the string and what follows. */
  lemma JsonStringPrefixFree(a: string, ra: string, b: string, rb: string)
    requires JsonString(a) + ra == JsonString(b) + rb
    ensures a == b && ra == rb
  {
    JsonStringRoundTrip(a, ra);
    JsonStringRoundTrip(b, rb);
  }

  // ----- The key -----

  /**
   * The JSON serialisation of `{ t: text.trim(), v, s, l }`, fields in that
   * order; `speedText` is the JSON text of the speed number.
   */
  function KeyInput(text: string, config: TTSConfig, speedText: real -> string): string {
    "{\"t\":" + JsonString(Trim(text)) + VoiceField(config, speedText)
  }

  /** The serialisation from the voice field on. */
  function VoiceField(config: TTSConfig, speedText: real -> string): string {
    ",\"v\":" + JsonString(VoiceId(config.voice)) + SpeedField(config, speedText)
  }

  /** The serialisation from the speed field on. */
  function SpeedField(config: TTSConfig, speedText: real -> string): string {
    ",\"s\":" + speedText(config.speed) + LanguageField(config)
  }

  /** The language field and the closing brace. */
  function LanguageField(config: TTSConfig): string {
    ",\"l\":" + JsonString(LanguageId(config.language)) + "}"
  }

  /** `b.toString(16).padStart(2, '0')`: two lowercase hex digits, high first. */
  function HexByte(b: Byte): (h: string)
    ensures |h| == 2
  {
    [HexDigit(b / 16), HexDigit(b % 16)]
  }

  /** The digest bytes as hex, joined without separator. */
  function Hex(bytes: seq<Byte>): (h: string)
    ensures |h| == 2 * |bytes|
  {
    if bytes == [] then [] else HexByte(bytes[0]) + Hex(bytes[1..])
  }

  /** Reads two hex digits per byte; the inverse of `Hex`. */
  function Unhex(h: string): Option<seq<Byte>>
    decreases |h|
  {
    if h == [] then Some([])
    else if |h| < 2 then None
    else
      var hi, lo := HexValue(h[0]), HexValue(h[1]);
      var rest := Unhex(h[2..]);
      if hi.Some? && lo.Some? && rest.Some? then Some([hi.value * 16 + lo.value] + rest.value) else None
  }

  lemma {:induction false} HexRoundTrip(bytes: seq<Byte>)
    ensures Unhex(Hex(bytes)) == Some(bytes)
    decreases |bytes|
  {
    if bytes != [] {
      HexRoundTrip(bytes[1..]);
      UnhexByteThen(bytes[0], Hex(bytes[1..]), bytes[1..]);
      assert [bytes[0]] + bytes[1..] == bytes;
    }
  }

  /** Reading one byte's two digits ahead of a readable rest. */
  lemma UnhexByteThen(b: Byte, rest: string, tail: seq<Byte>)
    requires Unhex(rest) == Some(tail)
    ensures Unhex(HexByte(b) + rest) == Some([b] + tail)
  {
    var h := HexByte(b) + rest;
    assert h[0] == HexDigit(b / 16) && h[1] == HexDigit(b % 16) && h[2..] == rest;
  }

  /** Every character of a key is a lowercase hex digit. */
  lemma {:induction false} HexDigitsOnly(bytes: seq<Byte>)
    ensures forall k :: 0 <= k < |Hex(bytes)| ==> HexValue(Hex(bytes)[k]).Some?
    decreases |bytes|
  {
    if bytes != [] {
      HexDigitsOnly(bytes[1..]);
    }
  }

  /** `generateCacheKey`: the hex of the digest of the serialised request. */
  function CacheKey(text: string, config: TTSConfig, digest: string -> seq<Byte>, speedText: real -> string): string {
    Hex(digest(KeyInput(text, config, speedText)))
  }

  /** A 32-byte digest, as SHA-256 gives, makes a 64-character key of lowercase hex digits. */
  lemma CacheKeyShape(text: string, config: TTSConfig, digest: string -> seq<Byte>, speedText: real -> string)
    requires |digest(KeyInput(text, config, speedText))| == 32
    ensures var k := CacheKey(text, config, digest, speedText);
            |k| == 64 && forall i :: 0 <= i < |k| ==> HexValue(k[i]).Some?
  {
    HexDigitsOnly(digest(KeyInput(text, config, speedText)));
  }

  /** Texts that differ only in leading or trailing whitespace get the same key. */
  lemma CacheKeyIgnoresOuterSpace(text: string, config: TTSConfig, digest: string -> seq<Byte>, speedText: real -> string)
    ensures CacheKey(text, config, digest, speedText) == CacheKey(Trim(text), config, digest, speedText)
  {
    TrimIdempotent(text);
  }

  /** The position of the first comma, or the length when there is none. */
  function CommaAt(s: string): (k: nat)
    ensures k <= |s|
  {
    if s == [] || s[0] == ',' then 0 else 1 + CommaAt(s[1..])
  }

  lemma {:induction false} CommaAfter(a: string, x: string)
    requires ',' !in a && x != [] && x[0] == ','
    ensures CommaAt(a + x) == |a|
    decreases |a|
  {
    if a == [] {
      assert a + x == x;
    } else {
      assert (a + x)[0] == a[0];
      assert (a + x)[1..] == a[1..] + x;
      CommaAfter(a[1..], x);
    }
  }

  /** If `a + x == b + y`, neither `a` nor `b` holds a comma and `x` and `y` start with one, then `a == b`. */
  lemma UpToComma(a: string, x: string, b: string, y: string)
    requires a + x == b + y && x != [] && y != [] && x[0] == ',' && y[0] == ','
    requires ',' !in a && ',' !in b
    ensures a == b && x == y
  {
    CommaAfter(a, x);
    CommaAfter(b, y);
    assert a == (a + x)[..|a|];
    assert b == (b + y)[..|b|];
  }

  /** Dropping a common prefix. */
  lemma DropPrefix(p: string, x: string, y: string)
    requires p + x == p + y
    ensures x == y
  {
    assert x == (p + x)[|p|..];
    assert y == (p + y)[|p|..];
  }

  /** A field: a fixed name, a string literal and the rest. Equal fields have equal values and rests. */
  lemma FieldsAgree(name: string, a: string, ra: string, b: string, rb: string)
    requires name + JsonString(a) + ra == name + JsonString(b) + rb
    ensures a == b && ra == rb
  {
    assert name + JsonString(a) + ra == name + (JsonString(a) + ra);
    assert name + JsonString(b) + rb == name + (JsonString(b) + rb);
    DropPrefix(name, JsonString(a) + ra, JsonString(b) + rb);
    JsonStringPrefixFree(a, ra, b, rb);
  }

  lemma LanguageFieldInjective(c1: TTSConfig, c2: TTSConfig)
    requires LanguageField(c1) == LanguageField(c2)
    ensures c1.language == c2.language
  {
    FieldsAgree(",\"l\":", LanguageId(c1.language), "}", LanguageId(c2.language), "}");
    LanguagesListEachCodeOnce();
  }

  /** The language field starts with its comma. */
  lemma LanguageFieldStartsWithComma(c: TTSConfig)
    ensures LanguageField(c) != [] && LanguageField(c)[0] == ','
  {
  }

  /** A fixed name, a comma-free value and a rest that starts with a comma: equal texts have equal values and rests. */
  lemma CommaFreeFieldsAgree(name: string, a: string, ra: string, b: string, rb: string)
    requires name + a + ra == name + b + rb
    requires ',' !in a && ',' !in b && ra != [] && rb != [] && ra[0] == ',' && rb[0] == ','
    ensures a == b && ra == rb
  {
    assert name + a + ra == name + (a + ra);
    assert name + b + rb == name + (b + rb);
    DropPrefix(name, a + ra, b + rb);
    UpToComma(a, ra, b, rb);
  }

  lemma SpeedFieldInjective(c1: TTSConfig, c2: TTSConfig, speedText: real -> string)
    requires ',' !in speedText(c1.speed) && ',' !in speedText(c2.speed)
    requires SpeedField(c1, speedText) == SpeedField(c2, speedText)
    ensures speedText(c1.speed) == speedText(c2.speed) && c1.language == c2.language
  {
    LanguageFieldStartsWithComma(c1);
    LanguageFieldStartsWithComma(c2);
    CommaFreeFieldsAgree(",\"s\":", speedText(c1.speed), LanguageField(c1), speedText(c2.speed), LanguageField(c2));
    LanguageFieldInjective(c1, c2);
  }

  lemma VoiceFieldInjective(c1: TTSConfig, c2: TTSConfig, speedText: real -> string)
    requires forall a: real, b: real :: speedText(a) == speedText(b) ==> a == b
    requires ',' !in speedText(c1.speed) && ',' !in speedText(c2.speed)
    requires VoiceField(c1, speedText) == VoiceField(c2, speedText)
    ensures c1 == c2
  {
    FieldsAgree(",\"v\":", VoiceId(c1.voice), SpeedField(c1, speedText), VoiceId(c2.voice), SpeedField(c2, speedText));
    VoiceIdInjective(c1.voice, c2.voice);
    SpeedFieldInjective(c1, c2, speedText);
  }

  /**
   * The serialisation is injective: two requests with the same key input
   * have the same trimmed text, voice, speed and language, as long as the
   * speed's JSON text is injective and never holds a comma.
   */
  lemma KeyInputInjective(t1: string, c1: TTSConfig, t2: string, c2: TTSConfig, speedText: real -> string)
    requires forall a: real, b: real :: speedText(a) == speedText(b) ==> a == b
    requires ',' !in speedText(c1.speed) && ',' !in speedText(c2.speed)
    requires KeyInput(t1, c1, speedText) == KeyInput(t2, c2, speedText)
    ensures Trim(t1) == Trim(t2) && c1 == c2
  {
    FieldsAgree("{\"t\":", Trim(t1), VoiceField(c1, speedText), Trim(t2), VoiceField(c2, speedText));
    VoiceFieldInjective(c1, c2, speedText);
  }

  /**
   * With an injective digest (the idealisation of SHA-256 the key relies
   * on), changing the trimmed text, the voice, the speed or the language
   * changes the key.
   */
  lemma CacheKeyInjective(t1: string, c1: TTSConfig, t2: string, c2: TTSConfig,
                          digest: string -> seq<Byte>, speedText: real -> string)
    requires forall a: string, b: string :: digest(a) == digest(b) ==> a == b
    requires forall a: real, b: real :: speedText(a) == speedText(b) ==> a == b
    requires ',' !in speedText(c1.speed) && ',' !in speedText(c2.speed)
    requires CacheKey(t1, c1, digest, speedText) == CacheKey(t2, c2, digest, speedText)
    ensures Trim(t1) == Trim(t2) && c1 == c2
  {
    var d1, d2 := digest(KeyInput(t1, c1, speedText)), digest(KeyInput(t2, c2, speedText));
    HexRoundTrip(d1);
    HexRoundTrip(d2);
    KeyInputInjective(t1, c1, t2, c2, speedText);
  }

  // ----- The store -----

  /** A stored `CacheEntry`. The blob is held as its bytes. */
  datatype CacheEntry = CacheEntry(key: string, blob: seq<Byte>, chunks: seq<string>, timings: seq<ChunkTiming>, timestamp: int)

  /** What a lookup returns: the entry without its key and timestamp. */
  datatype CachedAudio = CachedAudio(blob: seq<Byte>, chunks: seq<string>, timings: seq<ChunkTiming>)

  /**
   * How one IndexedDB operation goes: the database opens and the request
   * succeeds, the database fails to open, or it opens and the request fails.
   */
  datatype DbCondition = Opens | OpenFails(openError: Error) | RequestFails(requestError: Error)

  /** The entry stored under `key`, stripped of its key and timestamp. */
  function Lookup(entries: map<string, CacheEntry>, key: string): (r: Option<CachedAudio>)
    ensures r.Some? <==> key in entries
    ensures r.Some? ==> r.value == CachedAudio(entries[key].blob, entries[key].chunks, entries[key].timings)
  {
    if key in entries then
      var e := entries[key];
      Some(CachedAudio(e.blob, e.chunks, e.timings))
    else None
  }

  /**
   * What `getCachedAudio` resolves to: the lookup when the database opens,
   * null when it fails to open, and a rejection with the request's error
   * when the request fails (that rejection is not caught).
   */
  function ReadOutcome(entries: map<string, CacheEntry>, key: string, db: DbCondition): (r: Result<Option<CachedAudio>, Error>)
    ensures db.Opens? ==> r == Ok(Lookup(entries, key))
    ensures db.OpenFails? ==> r == Ok(None)
    ensures db.RequestFails? ==> r == Err(db.requestError)
  {
    match db
    case Opens => Ok(Lookup(entries, key))
    case OpenFails(_) => Ok(None)
    case RequestFails(e) => Err(e)
  }

  /** The store after `cacheAudio`: the entry, with the timestamp, replaces any earlier one for the key. */
  function Stored(entries: map<string, CacheEntry>, key: string, data: CachedAudio, now: int): map<string, CacheEntry> {
    entries[key := CacheEntry(key, data.blob, data.chunks, data.timings, now)]
  }

  /** A stored entry reads back as the data stored, and every other key reads as before. */
  lemma LookupAfterStore(entries: map<string, CacheEntry>, key: string, data: CachedAudio, now: int, other: string)
    ensures Lookup(Stored(entries, key, data, now), key) == Some(data)
    ensures other != key ==> Lookup(Stored(entries, key, data, now), other) == Lookup(entries, other)
  {
  }

  /** Storing twice under one key keeps only the second. */
  lemma StoreOverwrites(entries: map<string, CacheEntry>, key: string, d1: CachedAudio, t1: int, d2: CachedAudio, t2: int)
    ensures Stored(Stored(entries, key, d1, t1), key, d2, t2) == Stored(entries, key, d2, t2)
  {
  }

  /** The IndexedDB object store `audio_cache` of the `lumina_tts_db` database. */
  class AudioCache {
    var entries: map<string, CacheEntry>

    /** Every entry is stored under its own key. */
    ghost predicate Valid()
      reads this
    {
      forall k :: k in entries ==> entries[k].key == k
    }

    constructor()
      ensures entries == map[] && Valid()
    {
      entries := map[];
    }

    /** `getCachedAudio`: changes nothing. */
    method Get(key: string, db: DbCondition) returns (r: Result<Option<CachedAudio>, Error>)
      ensures r == ReadOutcome(entries, key, db)
    {
      match db {
        case OpenFails(_) =>
          return Ok(None);
        case RequestFails(e) =>
          return Err(e);
        case Opens =>
          if key in entries {
            var e := entries[key];
            return Ok(Some(CachedAudio(e.blob, e.chunks, e.timings)));
          }
          return Ok(None);
      }
    }

    /**
     * `cacheAudio`: stores the entry with timestamp `now` when the database
     * opens; an open failure is swallowed and stores nothing; a failed
     * request rejects with its error and stores nothing.
     */
    method Put(key: string, data: CachedAudio, now: int, db: DbCondition) returns (r: Result<(), Error>)
      requires Valid()
      modifies this
      ensures Valid()
      ensures db.Opens? ==> entries == Stored(old(entries), key, data, now) && r == Ok(())
      ensures db.OpenFails? ==> entries == old(entries) && r == Ok(())
      ensures db.RequestFails? ==> entries == old(entries) && r == Err(db.requestError)
    {
      match db {
        case Opens =>
          entries := entries[key := CacheEntry(key, data.blob, data.chunks, data.timings, now)];
          return Ok(());
        case OpenFails(_) =>
          return Ok(());
        case RequestFails(e) =>
          return Err(e);
      }
    }

    /**
     * `clearCache`: empties the store when the database opens; unlike a
     * read or a write, an open failure is rethrown; a failed request
     * rejects with its error.
     */
    method Clear(db: DbCondition) returns (r: Result<(), Error>)
      modifies this
      ensures db.Opens? ==> entries == map[] && r == Ok(())
      ensures db.OpenFails? ==> entries == old(entries) && r == Err(db.openError)
      ensures db.RequestFails? ==> entries == old(entries) && r == Err(db.requestError)
    {
      match db {
        case Opens =>
          entries := map[];
          return Ok(());
        case OpenFails(e) =>
          return Err(e);
        case RequestFails(e) =>
          return Err(e);
      }
    }
  }

  /** After a successful clear, every lookup finds nothing, whatever the database does next. */
  lemma ClearedReadsNothing(key: string, db: DbCondition)
    ensures ReadOutcome(map[], key, db) == (if db.RequestFails? then Err(db.requestError) else Ok(None))
  {
  }
}
