/**
 * The session store (`AuthProvider`): reads the token and the user from
 * the document's cookie string at start-up and clears both on logout.
 */
module UseAuth {
  import opened Wrappers
  import Text

  datatype User = User(id: string, username: string, role: string)

  /**
   * The accumulator record of the cookie parse. A piece without "=" stores
   * its key with the value `undefined`, here `None`.
   */
  type CookieJar = map<string, Option<string>>

  /** The one key a plain object will not store as its own property. */
  const ProtoKey := "__proto__"

  /** `const [key, value] = cookie.trim().split("=")` */
  function CookiePair(piece: string): (pair: (string, Option<string>))
    ensures '=' !in pair.0
    ensures pair.1.Some? ==> '=' !in pair.1.value
  {
    var parts := Text.Split(Text.Trim(piece), '=');
    (parts[0], if |parts| >= 2 then Some(parts[1]) else None)
  }

  lemma {:induction false} JoinStartsWithFirst(parts: seq<string>, sep: char)
    requires |parts| >= 2
    ensures Text.Join(parts, sep) == parts[0] + [sep] + Text.Join(parts[1..], sep)
    ensures parts[1] <= Text.Join(parts[1..], sep)
  {
    if |parts| > 2 {
      JoinStartsWithFirst(parts[1..], sep);
      assert parts[1..][1..] == parts[2..];
    }
  }

  /**
   * The key is the trimmed piece up to its first "="; the value, when there
   * is an "=", runs from there to the next "=" or the end, so a value that
   * itself contains "=" is cut short.
   */
  lemma CookiePairShape(piece: string)
    ensures var (key, value) := CookiePair(piece);
            var s := Text.Trim(piece);
            && '=' !in key
            && (value.None? <==> '=' !in s)
            && (value.None? ==> key == s)
            && (value.Some? ==> '=' !in value.value && key + "=" + value.value <= s)
            && (value.Some? ==> |key| + 1 + |value.value| == |s| || s[|key| + 1 + |value.value|] == '=')
  {
    var s := Text.Trim(piece);
    var parts := Text.Split(s, '=');
    Text.JoinSplit(s, '=');
    if |parts| >= 2 {
      JoinStartsWithFirst(parts, '=');
      var rest := Text.Join(parts[1..], '=');
      assert s == parts[0] + "=" + rest;
      assert rest[..|parts[1]|] == parts[1];
      assert (parts[0] + "=" + parts[1]) == s[..|parts[0]| + 1 + |parts[1]|];
      assert s[|parts[0]|] == '=';
      if |parts| > 2 {
        JoinStartsWithFirst(parts[1..], '=');
        assert parts[1..][1..] == parts[2..];
        assert rest[|parts[1]|] == '=';
        assert s[|parts[0]| + 1 + |parts[1]|] == rest[|parts[1]|];
      }
    }
  }

  /** `acc[key] = value` on a plain object. */
  function Store(jar: CookieJar, pair: (string, Option<string>)): (r: CookieJar)
    ensures r.Keys == if pair.0 == ProtoKey then jar.Keys else jar.Keys + {pair.0}
    ensures pair.0 != ProtoKey ==> r[pair.0] == pair.1
    ensures forall k :: k in jar && k != pair.0 ==> r[k] == jar[k]
  {
    if pair.0 == ProtoKey then jar else jar[pair.0 := pair.1]
  }

  /** The key/value pair of every piece, in order. */
  function Pairs(pieces: seq<string>): (r: seq<(string, Option<string>)>)
    ensures |r| == |pieces|
    ensures forall i :: 0 <= i < |pieces| ==> r[i] == CookiePair(pieces[i])
  {
    seq(|pieces|, i requires 0 <= i < |pieces| => CookiePair(pieces[i]))
  }

  /** The reduce over the pairs, from an empty record. */
  function Fold(pairs: seq<(string, Option<string>)>): (jar: CookieJar)
    ensures ProtoKey !in jar
    ensures forall k :: k in jar ==> exists i :: 0 <= i < |pairs| && pairs[i].0 == k
  {
    if pairs == [] then map[] else Store(Fold(pairs[..|pairs| - 1]), pairs[|pairs| - 1])
  }

  /** The record a cookie string parses to. */
  function JarOf(cookie: string): (jar: CookieJar)
    ensures ProtoKey !in jar
  {
    Fold(Pairs(Text.Split(cookie, ';')))
  }

  /**
   * A key is in the record exactly when some piece has it, and its value is
   * that of the last such piece: later occurrences overwrite earlier ones.
   */
  lemma {:induction false} FoldLastWins(pairs: seq<(string, Option<string>)>, key: string, i: nat)
    requires key != ProtoKey
    requires i < |pairs| && pairs[i].0 == key
    requires forall j :: i < j < |pairs| ==> pairs[j].0 != key
    ensures key in Fold(pairs) && Fold(pairs)[key] == pairs[i].1
  {
    if i < |pairs| - 1 {
      FoldLastWins(pairs[..|pairs| - 1], key, i);
    }
  }

  lemma {:induction false} FoldMissingKey(pairs: seq<(string, Option<string>)>, key: string)
    requires forall j :: 0 <= j < |pairs| ==> pairs[j].0 != key
    ensures key !in Fold(pairs)
  {
    if pairs != [] {
      FoldMissingKey(pairs[..|pairs| - 1], key);
    }
  }

  /** The cookie-string form of the two facts above. */
  lemma JarOfLastWins(cookie: string, key: string, i: nat)
    requires key != ProtoKey
    requires var pieces := Text.Split(cookie, ';');
             i < |pieces| && CookiePair(pieces[i]).0 == key
             && forall j :: i < j < |pieces| ==> CookiePair(pieces[j]).0 != key
    ensures key in JarOf(cookie) && JarOf(cookie)[key] == CookiePair(Text.Split(cookie, ';')[i]).1
  {
    FoldLastWins(Pairs(Text.Split(cookie, ';')), key, i);
  }

  /** One more piece stores one more pair. */
  lemma FoldStep(pieces: seq<string>, i: nat)
    requires i < |pieces|
    ensures Fold(Pairs(pieces[..i + 1])) == Store(Fold(Pairs(pieces[..i])), CookiePair(pieces[i]))
  {
    var pairs := Pairs(pieces[..i + 1]);
    assert pairs[..i] == Pairs(pieces[..i]);
  }

  /** `document.cookie.split(";").reduce(...)`. */
  method ParseCookies(cookie: string) returns (acc: CookieJar)
    ensures acc == JarOf(cookie)
  {
    acc := ReducePieces(Text.Split(cookie, ';'));
  }

  /** The `reduce` over the pieces, its callback writing each pair into the accumulator. */
  method ReducePieces(pieces: seq<string>) returns (acc: CookieJar)
    ensures acc == Fold(Pairs(pieces))
  {
    acc := map[];
    var i := 0;
    while i < |pieces|
      invariant 0 <= i <= |pieces|
      invariant acc == Fold(Pairs(pieces[..i]))
    {
      var pair := CookiePair(pieces[i]);
      FoldStep(pieces, i);
      if pair.0 != ProtoKey {
        acc := acc[pair.0 := pair.1];
      }
      i := i + 1;
    }
    assert pieces[..|pieces|] == pieces;
  }

  /** An entry counts only when present with a non-empty value (`if (cookies.token)`). */
  function Truthy(jar: CookieJar, key: string): (v: Option<string>)
    ensures v.Some? <==> key in jar && jar[key].Some? && jar[key].value != ""
    ensures v.Some? ==> v.value == jar[key].value
  {
    if key in jar && jar[key].Some? && jar[key].value != "" then jar[key] else None
  }

  /** The token a cookie string yields, if any. */
  function CookieToken(cookie: string): Option<string>
  {
    Truthy(JarOf(cookie), "token")
  }

  /** The encoded user record a cookie string carries, if any. */
  function CookieUser(cookie: string): Option<string>
  {
    Truthy(JarOf(cookie), "user")
  }

  /** An empty cookie string yields neither a token nor a user. */
  lemma EmptyCookieNoSession()
    ensures CookieToken("") == None && CookieUser("") == None
  {
    assert Text.Split("", ';') == [""];
    assert Text.Trim("") == "";
    assert Text.Split("", '=') == [""];
    assert Pairs([""]) == [("", None)];
    assert Fold([("", None)]) == map["" := None];
  }

  /** A cookie string with no piece whose key is "token" yields no token. */
  lemma NoTokenPieceNoToken(cookie: string)
    requires forall j :: 0 <= j < |Text.Split(cookie, ';')| ==> CookiePair(Text.Split(cookie, ';')[j]).0 != "token"
    ensures CookieToken(cookie) == None
  {
    FoldMissingKey(Pairs(Text.Split(cookie, ';')), "token");
  }

  const ClearToken := "token=; path=/; max-age=0"
  const ClearUser := "user=; path=/; max-age=0"

  class AuthProvider {
    var user: Option<User>
    var token: Option<string>

    constructor ()
      ensures user == None && token == None
    {
      user := None;
      token := None;
    }

    /**
     * `loadAuth`: adopt a non-empty token cookie; decode a non-empty user
     * cookie with `decodeUser` (URL-decoding and JSON parsing, `None` when
     * either throws) and adopt the result, leaving `user` as it was on a
     * failure. The two are independent.
     */
    method LoadAuth(cookie: string, decodeUser: string -> Option<User>)
      modifies this
      ensures token == if CookieToken(cookie).Some? then CookieToken(cookie) else old(token)
      ensures user == if CookieUser(cookie).Some? && decodeUser(CookieUser(cookie).value).Some?
                      then decodeUser(CookieUser(cookie).value) else old(user)
    {
      var cookies := ParseCookies(cookie);
      var t := Truthy(cookies, "token");
      if t.Some? {
        token := t;
      }
      var u := Truthy(cookies, "user");
      if u.Some? {
        var decoded := decodeUser(u.value);
        if decoded.Some? {
          user := decoded;
        }
      }
    }

    /** `logout`: expire both cookies and clear the in-memory session. */
    method Logout() returns (written: seq<string>)
      modifies this
      ensures user == None && token == None
      ensures written == [ClearToken, ClearUser]
    {
      written := [ClearToken];
      written := written + [ClearUser];
      user := None;
      token := None;
    }
  }
}
