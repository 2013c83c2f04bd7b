/** Routing tags: unpadded base64url of a user id (sections 3.2 and 5 of RFC 4648),
    the session ids built from them, and the Redis keys built from both. */
module RoutingTag {
  import opened Basics
  import Utf8

  type Byte = Utf8.Byte
  type Sextet = x: int | 0 <= x < 64

  // --------------------------------------------------------------- base64url

  function SextetChar(x: Sextet): char {
    if x < 26 then (x + 'A' as int) as char
    else if x < 52 then (x - 26 + 'a' as int) as char
    else if x < 62 then (x - 52 + '0' as int) as char
    else if x == 62 then '-'
    else '_'
  }

  predicate InAlphabet(c: char) {
    'A' <= c <= 'Z' || 'a' <= c <= 'z' || '0' <= c <= '9' || c == '-' || c == '_'
  }

  function CharSextet(c: char): Sextet
    requires InAlphabet(c)
  {
    if 'A' <= c <= 'Z' then c as int - 'A' as int
    else if 'a' <= c <= 'z' then c as int - 'a' as int + 26
    else if '0' <= c <= '9' then c as int - '0' as int + 52
    else if c == '-' then 62
    else 63
  }

  /** The four six-bit groups of three bytes. */
  function Six0(a: Byte): Sextet {
    a / 4
  }

  function Six1(a: Byte, b: Byte): Sextet {
    a % 4 * 16 + b / 16
  }

  function Six2(b: Byte, c: Byte): Sextet {
    b % 16 * 4 + c / 64
  }

  function Six3(c: Byte): Sextet {
    c % 64
  }

  function Text(x: seq<Sextet>): string {
    seq(|x|, i requires 0 <= i < |x| => SextetChar(x[i]))
  }

  /** The padded encoding: four characters for every three bytes begun. */
  function Encode(b: seq<Byte>): string {
    if b == [] then ""
    else if |b| == 1 then Text([Six0(b[0]), Six1(b[0], 0)]) + "=="
    else if |b| == 2 then Text([Six0(b[0]), Six1(b[0], b[1]), Six2(b[1], 0)]) + "="
    else Text([Six0(b[0]), Six1(b[0], b[1]), Six2(b[1], b[2]), Six3(b[2])]) + Encode(b[3..])
  }

  /** Drops every trailing `=`. */
  function StripPadding(s: string): string {
    if s != "" && s[|s| - 1] == '=' then StripPadding(s[..|s| - 1]) else s
  }

  function Tag(b: seq<Byte>): string {
    StripPadding(Encode(b))
  }

  /** The reference decoder: accepts exactly the canonical unpadded encodings. */
  function Decode(s: string): Option<seq<Byte>> {
    if exists c :: c in s && !InAlphabet(c) then None
    else DecodeSextets(seq(|s|, i requires 0 <= i < |s| => if InAlphabet(s[i]) then CharSextet(s[i]) else 0))
  }

  function Byte0(x: Sextet, y: Sextet): Byte {
    x as int * 4 + y as int / 16
  }

  function Byte1(y: Sextet, z: Sextet): Byte {
    y as int % 16 * 16 + z as int / 4
  }

  function Byte2(z: Sextet, w: Sextet): Byte {
    z as int % 4 * 64 + w as int
  }

  function DecodeSextets(x: seq<Sextet>): Option<seq<Byte>> {
    if x == [] then Some([])
    else if |x| == 1 then None
    else if |x| == 2 then if x[1] % 16 == 0 then Some([Byte0(x[0], x[1])]) else None
    else if |x| == 3 then if x[2] % 4 == 0 then Some([Byte0(x[0], x[1]), Byte1(x[1], x[2])]) else None
    else
      match DecodeSextets(x[4..])
      case None => None
      case Some(rest) => Some([Byte0(x[0], x[1]), Byte1(x[1], x[2]), Byte2(x[2], x[3])] + rest)
  }

  /** The sextets of a byte string, without padding. */
  function Sextets(b: seq<Byte>): seq<Sextet> {
    if b == [] then []
    else if |b| == 1 then [Six0(b[0]), Six1(b[0], 0)]
    else if |b| == 2 then [Six0(b[0]), Six1(b[0], b[1]), Six2(b[1], 0)]
    else [Six0(b[0]), Six1(b[0], b[1]), Six2(b[1], b[2]), Six3(b[2])] + Sextets(b[3..])
  }

  lemma CharsRoundTrip()
    ensures forall x: Sextet :: InAlphabet(SextetChar(x)) && CharSextet(SextetChar(x)) == x
    ensures forall c: char :: InAlphabet(c) ==> SextetChar(CharSextet(c)) == c
  {
  }

  /** The alphabet of section 5 of RFC 4648. */
  lemma AlphabetIs(x: Sextet)
    ensures x < 26 ==> SextetChar(x) == "ABCDEFGHIJKLMNOPQRSTUVWXYZ"[x]
    ensures 26 <= x < 52 ==> SextetChar(x) == "abcdefghijklmnopqrstuvwxyz"[x - 26]
    ensures 52 <= x < 62 ==> SextetChar(x) == "0123456789"[x - 52]
    ensures SextetChar(62) == '-' && SextetChar(63) == '_'
  {
  }

  /** Four sextets are the same 24 bits as their three bytes. */
  lemma SameBits(a: Byte, b: Byte, c: Byte)
    ensures Sextets([a, b, c]) == [Six0(a), Six1(a, b), Six2(b, c), Six3(c)]
    ensures Six0(a) * 262144 + Six1(a, b) * 4096 + Six2(b, c) * 64 + Six3(c) == a * 65536 + b * 256 + c
  {
    assert a == 4 * (a / 4) + a % 4 && b == 16 * (b / 16) + b % 16 && c == 64 * (c / 64) + c % 64;
  }

  function Padding(n: nat): string {
    if n % 3 == 0 then "" else if n % 3 == 1 then "==" else "="
  }

  lemma TextSplit(x: seq<Sextet>, y: seq<Sextet>)
    ensures Text(x + y) == Text(x) + Text(y)
  {
  }

  lemma {:induction false} EncodeIsPadded(b: seq<Byte>)
    ensures Encode(b) == Text(Sextets(b)) + Padding(|b|)
  {
    if |b| >= 3 {
      EncodeIsPadded(b[3..]);
      var x, rest := [Six0(b[0]), Six1(b[0], b[1]), Six2(b[1], b[2]), Six3(b[2])], Sextets(b[3..]);
      TextSplit(x, rest);
      calc {
        Encode(b);
        Text(x) + (Text(rest) + Padding(|b| - 3));
        Text(x) + Text(rest) + Padding(|b|);
        Text(x + rest) + Padding(|b|);
        Text(Sextets(b)) + Padding(|b|);
      }
    }
  }

  lemma StripsOne(s: string)
    ensures StripPadding(s + "=") == StripPadding(s)
  {
    assert (s + "=")[..|s|] == s;
  }

  lemma StripsNothing(s: string)
    requires s == "" || InAlphabet(s[|s| - 1])
    ensures StripPadding(s) == s
  {
  }

  lemma StripsPadding(s: string, n: nat)
    requires s == "" || InAlphabet(s[|s| - 1])
    ensures StripPadding(s + Padding(n)) == s
  {
    StripsNothing(s);
    if n % 3 == 0 {
      assert s + Padding(n) == s;
    } else if n % 3 == 1 {
      StripsOne(s);
      StripsOne(s + "=");
      assert s + Padding(n) == s + "=" + "=";
    } else {
      StripsOne(s);
    }
  }

  /** Stripping leaves the text of the sextets. */
  lemma TagIsText(b: seq<Byte>)
    ensures Tag(b) == Text(Sextets(b))
    ensures forall i :: 0 <= i < |Tag(b)| ==> InAlphabet(Tag(b)[i])
    ensures b != [] ==> Tag(b) != ""
  {
    CharsRoundTrip();
    EncodeIsPadded(b);
    StripsPadding(Text(Sextets(b)), |b|);
  }

  lemma BytesBack(a: Byte, b: Byte, c: Byte)
    ensures Byte0(Six0(a), Six1(a, b)) == a
    ensures Byte1(Six1(a, b), Six2(b, c)) == b
    ensures Byte2(Six2(b, c), Six3(c)) == c
  {
  }

  lemma PaddingIsZero(a: Byte)
    ensures Six1(a, 0) % 16 == 0 && Six2(a, 0) % 4 == 0
  {
  }

  lemma DecodeSplit(x: Sextet, y: Sextet, z: Sextet, w: Sextet, rest: seq<Sextet>)
    requires DecodeSextets(rest).Some?
    ensures DecodeSextets([x, y, z, w] + rest) == Some([Byte0(x, y), Byte1(y, z), Byte2(z, w)] + DecodeSextets(rest).value)
  {
    assert ([x, y, z, w] + rest)[4..] == rest;
  }

  lemma DecodeTwo(x: Sextet, y: Sextet)
    requires y % 16 == 0
    ensures DecodeSextets([x, y]) == Some([Byte0(x, y)])
  {
  }

  lemma DecodeThree(x: Sextet, y: Sextet, z: Sextet)
    requires z % 4 == 0
    ensures DecodeSextets([x, y, z]) == Some([Byte0(x, y), Byte1(y, z)])
  {
  }

  lemma OneDecodes(a: Byte)
    ensures DecodeSextets(Sextets([a])) == Some([a])
  {
    BytesBack(a, 0, 0);
    PaddingIsZero(a);
    DecodeTwo(Six0(a), Six1(a, 0));
  }

  lemma TwoDecode(a: Byte, b: Byte)
    ensures DecodeSextets(Sextets([a, b])) == Some([a, b])
  {
    BytesBack(a, b, 0);
    PaddingIsZero(b);
    var x, y, z := Six0(a), Six1(a, b), Six2(b, 0);
    calc {
      DecodeSextets(Sextets([a, b]));
      { assert Sextets([a, b]) == [x, y, z]; }
      DecodeSextets([x, y, z]);
      { DecodeThree(x, y, z); }
      Some([Byte0(x, y), Byte1(y, z)]);
      Some([a, b]);
    }
  }

  lemma {:induction false} SextetsDecode(b: seq<Byte>)
    ensures DecodeSextets(Sextets(b)) == Some(b)
  {
    if |b| == 1 {
      OneDecodes(b[0]);
      assert b == [b[0]];
    } else if |b| == 2 {
      TwoDecode(b[0], b[1]);
      assert b == [b[0], b[1]];
    } else if |b| >= 3 {
      SextetsDecode(b[3..]);
      BytesBack(b[0], b[1], b[2]);
      DecodeSplit(Six0(b[0]), Six1(b[0], b[1]), Six2(b[1], b[2]), Six3(b[2]), Sextets(b[3..]));
      assert b == [b[0], b[1], b[2]] + b[3..];
    }
  }

  lemma SextetsBack(x: Sextet, y: Sextet, z: Sextet, w: Sextet)
    ensures Six0(Byte0(x, y)) == x
    ensures Six1(Byte0(x, y), Byte1(y, z)) == y
    ensures Six2(Byte1(y, z), Byte2(z, w)) == z
    ensures Six3(Byte2(z, w)) == w
  {
  }

  lemma LastOfTwo(x: Sextet, y: Sextet)
    requires y % 16 == 0
    ensures Six1(Byte0(x, y), 0) == y
  {
    var q := y / 16;
    assert y == 16 * q && (4 * x + q) % 4 == q;
  }

  lemma LastOfThree(x: Sextet, y: Sextet)
    requires y % 4 == 0
    ensures Six2(Byte1(x, y), 0) == y
  {
    var q, p := y / 4, x % 16;
    assert y == 4 * q && (16 * p + q) % 16 == q;
  }

  lemma SextetsSplit(a: Byte, b: Byte, c: Byte, rest: seq<Byte>)
    ensures Sextets([a, b, c] + rest) == [Six0(a), Six1(a, b), Six2(b, c), Six3(c)] + Sextets(rest)
  {
    assert ([a, b, c] + rest)[3..] == rest;
  }

  lemma {:induction false} DecodedEncodes(x: seq<Sextet>)
    requires DecodeSextets(x).Some?
    ensures Sextets(DecodeSextets(x).value) == x
  {
    if |x| == 2 {
      SextetsBack(x[0], x[1], 0, 0);
      LastOfTwo(x[0], x[1]);
    } else if |x| == 3 {
      SextetsBack(x[0], x[1], x[2], 0);
      LastOfThree(x[1], x[2]);
    } else if |x| >= 4 {
      DecodedEncodes(x[4..]);
      SextetsBack(x[0], x[1], x[2], x[3]);
      SextetsSplit(Byte0(x[0], x[1]), Byte1(x[1], x[2]), Byte2(x[2], x[3]), DecodeSextets(x[4..]).value);
      assert x == [x[0], x[1], x[2], x[3]] + x[4..];
    }
  }

  /** Tagging and decoding are inverse to each other, so the tag is injective and
      its image is known. */
  lemma DecodeInvertsTag(b: seq<Byte>, s: string)
    ensures Decode(s) == Some(b) <==> Tag(b) == s
  {
    CharsRoundTrip();
    TagIsText(b);
    if Tag(b) == s {
      SextetsDecode(b);
      assert seq(|s|, i requires 0 <= i < |s| => if InAlphabet(s[i]) then CharSextet(s[i]) else 0) == Sextets(b);
    }
    if Decode(s) == Some(b) {
      var x := seq(|s|, i requires 0 <= i < |s| => if InAlphabet(s[i]) then CharSextet(s[i]) else 0);
      DecodedEncodes(x);
      assert Text(x) == s;
    }
  }

  // ---------------------------------------------------------------- user ids

  /** `None` where an empty id is refused. */
  function UserTag(user: string): Option<string> {
    if user == "" then None else Some(Tag(Utf8.Encode(user)))
  }

  lemma UserTagShape(user: string)
    requires user != ""
    ensures var tag := UserTag(user).value; tag != "" && forall i :: 0 <= i < |tag| ==> InAlphabet(tag[i])
  {
    TagIsText(Utf8.Encode(user));
  }

  /** Different users have different tags. */
  lemma UserTagInjective(u: string, v: string)
    requires u != "" && v != "" && UserTag(u) == UserTag(v)
    ensures u == v
  {
    DecodeInvertsTag(Utf8.Encode(u), UserTag(u).value);
    DecodeInvertsTag(Utf8.Encode(v), UserTag(v).value);
    Utf8.EncodeInjective(u, v);
  }

  // ------------------------------------------------------------- session ids

  /** The first place of a character, or the length where there is none. */
  function IndexOf(s: string, c: char): (i: nat)
    ensures i <= |s| && (i < |s| ==> s[i] == c) && forall j :: 0 <= j < i ==> s[j] != c
  {
    if s == "" then 0
    else if s[0] == c then 0
    else
      var k := IndexOf(s[1..], c);
      assert forall j :: 0 < j < k + 1 ==> s[j] == s[1..][j - 1];
      k + 1
  }

  /** `None` where the id is refused: no dot, nothing before it or nothing after. */
  function SessionTag(id: string): Option<string> {
    var i := IndexOf(id, '.');
    if i == |id| || i == 0 || i + 1 == |id| then None else Some(id[..i])
  }

  function CreateSessionId(user: string, secret: string): Option<string> {
    if user == "" then None else Some(UserTag(user).value + "." + secret)
  }

  lemma IndexAfter(a: string, c: char, b: string)
    requires forall i :: 0 <= i < |a| ==> a[i] != c
    ensures IndexOf(a + [c] + b, c) == |a|
  {
    var s := a + [c] + b;
    assert s[|a|] == c && forall i :: 0 <= i < |a| ==> s[i] == a[i];
  }

  /** The id belongs to the user: what `create` demands. */
  predicate BelongsTo(id: string, user: string) {
    user != "" && SessionTag(id) == UserTag(user)
  }

  /** A created id gives its tag back whatever its secret, and is accepted for its
      own user and for nobody else. */
  lemma CreatedIdBelongs(user: string, secret: string, other: string)
    requires user != "" && secret != ""
    ensures var id := CreateSessionId(user, secret).value;
      && SessionTag(id) == UserTag(user)
      && (BelongsTo(id, other) <==> other == user)
  {
    UserTagShape(user);
    var tag := UserTag(user).value;
    IndexAfter(tag, '.', secret);
    var id := tag + ['.'] + secret;
    assert id == CreateSessionId(user, secret).value;
    assert id[..|tag|] == tag;
    if BelongsTo(id, other) {
      UserTagInjective(user, other);
    }
  }

  /** The ids that belong to a user are exactly the created ones. */
  lemma BelongingIsCreated(id: string, user: string)
    requires user != ""
    ensures BelongsTo(id, user) <==> exists secret :: secret != "" && CreateSessionId(user, secret) == Some(id)
  {
    var i := IndexOf(id, '.');
    if BelongsTo(id, user) {
      assert id == id[..i] + "." + id[i + 1..];
      assert CreateSessionId(user, id[i + 1..]) == Some(id);
    }
    forall secret | secret != "" && CreateSessionId(user, secret) == Some(id) ensures BelongsTo(id, user) {
      CreatedIdBelongs(user, secret, user);
    }
  }

  lemma OneOwner(id: string, u: string, v: string)
    requires BelongsTo(id, u) && BelongsTo(id, v)
    ensures u == v
  {
    UserTagInjective(u, v);
  }

  // --------------------------------------------------------------- Redis keys

  const PREFIX := "kis_session:{"
  const SESSION := ":session:"
  const INDEX := ":user-sessions"

  function SessionKey(id: string): Option<string> {
    match SessionTag(id)
    case None => None
    case Some(tag) => Some(PREFIX + tag + "}" + SESSION + id)
  }

  function UserKey(user: string): Option<string> {
    match UserTag(user)
    case None => None
    case Some(tag) => Some(PREFIX + tag + "}" + INDEX)
  }

  /** The part of a key that Redis Cluster hashes: what stands between the first
      opening brace and the next closing one, unless that is nothing. */
  function HashTag(key: string): string {
    var i := IndexOf(key, '{');
    if i == |key| then key
    else
      var j := IndexOf(key[i + 1..], '}');
      if i + 1 + j == |key| || j == 0 then key else key[i + 1..][..j]
  }

  lemma HashTagOf(tag: string, rest: string)
    requires tag != "" && forall i :: 0 <= i < |tag| ==> InAlphabet(tag[i])
    ensures HashTag(PREFIX + tag + "}" + rest) == tag
  {
    var key := PREFIX + tag + "}" + rest;
    var head := "kis_session:";
    assert PREFIX == head + ['{'];
    assert key == head + ['{'] + (tag + "}" + rest);
    IndexAfter(head, '{', tag + "}" + rest);
    assert key[13..] == tag + ['}'] + rest;
    IndexAfter(tag, '}', rest);
    assert key[13..][..|tag|] == tag;
  }

  /** All keys of one user hash to one slot: its tag. */
  lemma KeysShareHashTag(id: string, user: string)
    requires BelongsTo(id, user)
    ensures SessionKey(id).Some? && UserKey(user).Some?
    ensures HashTag(SessionKey(id).value) == UserTag(user).value == HashTag(UserKey(user).value)
  {
    UserTagShape(user);
    var tag := UserTag(user).value;
    assert PREFIX + tag + "}" + SESSION + id == PREFIX + tag + "}" + (SESSION + id);
    HashTagOf(tag, SESSION + id);
    HashTagOf(tag, INDEX);
  }

  lemma SessionKeyParts(id: string, user: string, tag: string, key: string)
    requires BelongsTo(id, user) && UserTag(user) == Some(tag) && SessionKey(id) == Some(key)
    ensures |key| > |tag| + 23 && key[|tag| + 15] == 's' && key[|tag| + 23..] == id
  {
    assert key == PREFIX + tag + "}" + SESSION + id;
  }

  lemma UserKeyParts(user: string, tag: string, key: string)
    requires UserTag(user) == Some(tag) && UserKey(user) == Some(key)
    ensures |key| > |tag| + 15 && key[|tag| + 15] == 'u'
  {
    assert key == PREFIX + tag + "}" + INDEX;
  }

  /** No two sessions share a key. */
  lemma SessionKeyInjective(id: string, user: string, id': string, user': string)
    requires BelongsTo(id, user) && BelongsTo(id', user') && SessionKey(id) == SessionKey(id')
    ensures id == id'
  {
    KeysShareHashTag(id, user);
    KeysShareHashTag(id', user');
    SessionKeyParts(id, user, UserTag(user).value, SessionKey(id).value);
    SessionKeyParts(id', user', UserTag(user').value, SessionKey(id').value);
  }

  /** No two users share an index key. */
  lemma UserKeyInjective(u: string, v: string)
    requires u != "" && v != "" && UserKey(u) == UserKey(v)
    ensures u == v
  {
    UserTagShape(u);
    UserTagShape(v);
    HashTagOf(UserTag(u).value, INDEX);
    HashTagOf(UserTag(v).value, INDEX);
    UserTagInjective(u, v);
  }

  /** No session key is an index key. */
  lemma SessionKeyIsNoUserKey(id: string, user: string, other: string)
    requires BelongsTo(id, user) && other != ""
    ensures SessionKey(id) != UserKey(other)
  {
    UserTagShape(other);
    KeysShareHashTag(id, user);
    HashTagOf(UserTag(other).value, INDEX);
    SessionKeyParts(id, user, UserTag(user).value, SessionKey(id).value);
    UserKeyParts(other, UserTag(other).value, UserKey(other).value);
  }

  lemma KeyText(tag: string, id: string)
    ensures PREFIX + tag + "}" + SESSION + id == "kis_session:{" + tag + "}:session:" + id
    ensures PREFIX + tag + "}" + INDEX == "kis_session:{" + tag + "}:user-sessions"
  {
    assert "}" + SESSION == "}:session:" && "}" + INDEX == "}:user-sessions";
    assert PREFIX + tag + "}" + SESSION + id == PREFIX + tag + ("}" + SESSION) + id;
    assert PREFIX + tag + "}" + INDEX == PREFIX + tag + ("}" + INDEX);
  }

  /** The texts of the keys, around the tag, and of the ids. */
  lemma TextsAre(user: string, id: string, secret: string)
    requires BelongsTo(id, user) && secret != ""
    ensures var tag := Tag(Utf8.Encode(user));
      && CreateSessionId(user, secret) == Some(tag + "." + secret)
      && SessionKey(id) == Some("kis_session:{" + tag + "}:session:" + id)
      && UserKey(user) == Some("kis_session:{" + tag + "}:user-sessions")
  {
    KeyText(Tag(Utf8.Encode(user)), id);
  }
}
