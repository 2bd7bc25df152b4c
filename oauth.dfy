/**
 * The OAuth 2.0 helpers of `src/config/oAtuh2.ts`: the base64url encoding used for
 * the PKCE code challenge (section 4.2 of RFC 7636, S256 method) and the Discord and
 * Twitter authorize-URL builders.
 *
 * Configuration values (client ids, the Twitter callback URI) are parameters;
 * `encodeURIComponent` is an abstract function parameter.
 */
module OAuth {
  import opened Text

  newtype byte = x: int | 0 <= x < 256

  // ---------------------------------------------------------------------------
  // base64 (RFC 4648)

  /**
   * The character for a 6-bit value: section 4 of RFC 4648 (table 1) when `url` is
   * false, the URL and filename safe alphabet of section 5 of RFC 4648 (table 2) when it is true.
   * The two tables differ only for the values 62 and 63.
   */
  function Symbol(v: int, url: bool): (c: char)
    requires 0 <= v < 64
    ensures c != '='
    ensures v < 62 ==> c != '+' && c != '/' && c != '-' && c != '_'
  {
    if v < 26 then (('A' as int) + v) as char
    else if v < 52 then (('a' as int) + v - 26) as char
    else if v < 62 then (('0' as int) + v - 52) as char
    else if v == 62 then (if url then '-' else '+')
    else (if url then '_' else '/')
  }

  /**
   * Base64 with padding over the alphabet chosen by `url`: each group of three bytes
   * becomes four characters; a final group of one or two bytes is padded with `=`.
   */
  function Encode(b: seq<byte>, url: bool): (r: string)
    ensures |r| == 4 * ((|b| + 2) / 3)
    decreases |b|
  {
    if |b| == 0 then ""
    else if |b| == 1 then
      [Symbol(b[0] as int / 4, url), Symbol((b[0] as int % 4) * 16, url), '=', '=']
    else if |b| == 2 then
      [Symbol(b[0] as int / 4, url), Symbol((b[0] as int % 4) * 16 + b[1] as int / 16, url),
       Symbol((b[1] as int % 16) * 4, url), '=']
    else
      [Symbol(b[0] as int / 4, url), Symbol((b[0] as int % 4) * 16 + b[1] as int / 16, url),
       Symbol((b[1] as int % 16) * 4 + b[2] as int / 64, url), Symbol(b[2] as int % 64, url)]
      + Encode(b[3..], url)
  }

  /** `buffer.toString('base64')`: section 4 of RFC 4648, padded. */
  function StandardBase64(b: seq<byte>): string {
    Encode(b, false)
  }

  /** Base64url of section 5 of RFC 4648 with the padding left out, the form RFC 7636 uses. */
  function Base64UrlUnpadded(b: seq<byte>): string {
    StripTrailing(Encode(b, true), '=')
  }

  /** The character that position `k` of `s` turns into when only the FIRST `+` and the FIRST `/` are rewritten. */
  function FirstOnlyRewrite(s: string, k: nat): char
    requires k < |s|
  {
    if s[k] == '+' && '+' !in s[..k] then '-'
    else if s[k] == '/' && '/' !in s[..k] then '_'
    else s[k]
  }

  /**
   * `base64UrlEncode` as written: the standard encoding, then `.replace('+', '-')`
   * and `.replace('/', '_')` (each replaces one occurrence only), then the trailing
   * run of `=` removed.
   */
  function Base64UrlEncode(b: seq<byte>): (r: string)
    ensures r == [] || r[|r| - 1] != '='
    ensures |r| <= |StandardBase64(b)|
    ensures forall k :: |r| <= k < |StandardBase64(b)| ==> StandardBase64(b)[k] == '='
    ensures forall k :: 0 <= k < |r| ==> r[k] == FirstOnlyRewrite(StandardBase64(b), k)
  {
    var s := StandardBase64(b);
    var t := ReplaceFirst(ReplaceFirst(s, '+', '-'), '/', '_');
    FirstOnlyRewriteAgrees(s);
    assert forall k :: 0 <= k < |t| && t[k] == '=' ==> s[k] == '=';
    StripTrailing(t, '=')
  }

  /** The two single replacements rewrite exactly the positions `FirstOnlyRewrite` names. */
  lemma FirstOnlyRewriteAgrees(s: string)
    ensures var t := ReplaceFirst(ReplaceFirst(s, '+', '-'), '/', '_');
      |t| == |s| && (forall k :: 0 <= k < |s| ==> t[k] == FirstOnlyRewrite(s, k))
  {
    var t1 := ReplaceFirst(s, '+', '-');
    var t := ReplaceFirst(t1, '/', '_');
    forall j | 0 <= j < |s|
      ensures t1[j] == '/' <==> s[j] == '/'
    {
      ReplaceFirstAt(s, '+', '-', j);
    }
    forall k | 0 <= k < |s|
      ensures t[k] == FirstOnlyRewrite(s, k)
    {
      ReplaceFirstAt(s, '+', '-', k);
      ReplaceFirstAt(t1, '/', '_', k);
      SameOccurrences(t1, s, '/', k);
    }
  }

  /** The correction: every `+` and every `/` rewritten, then the padding removed. */
  function Base64UrlEncodeCorrected(b: seq<byte>): (r: string)
    ensures r == Base64UrlUnpadded(b)
  {
    var s := StandardBase64(b);
    EncodeUrlTranslates(b);
    StripTrailing(ReplaceAll(ReplaceAll(s, '+', '-'), '/', '_'), '=')
  }

  /** Rewrites a base64 character (section 4 of RFC 4648) into the base64url character (section 5 of RFC 4648) for the same value. */
  function ToUrlChar(c: char): char {
    if c == '+' then '-' else if c == '/' then '_' else c
  }

  /** Position by position, the base64url encoding (section 5 of RFC 4648) is the base64 encoding (section 4 of RFC 4648) with `+` and `/` rewritten. */
  lemma {:induction false} EncodeUrlPointwise(b: seq<byte>)
    ensures forall k :: 0 <= k < |Encode(b, true)| ==> Encode(b, true)[k] == ToUrlChar(Encode(b, false)[k])
    decreases |b|
  {
    assert forall v :: 0 <= v < 64 ==> Symbol(v, true) == ToUrlChar(Symbol(v, false));
    if |b| >= 3 {
      EncodeUrlPointwise(b[3..]);
      var s, u := Encode(b, false), Encode(b, true);
      assert s[4..] == Encode(b[3..], false) && u[4..] == Encode(b[3..], true);
      forall k | 4 <= k < |u|
        ensures u[k] == ToUrlChar(s[k])
      {
        assert u[k] == u[4..][k - 4] && s[k] == s[4..][k - 4];
      }
    }
  }

  /** The base64url encoding (section 5 of RFC 4648) is the base64 encoding (section 4 of RFC 4648) with every `+` and every `/` replaced. */
  lemma EncodeUrlTranslates(b: seq<byte>)
    ensures var s := Encode(b, false);
      Encode(b, true) == ReplaceAll(ReplaceAll(s, '+', '-'), '/', '_')
  {
    EncodeUrlPointwise(b);
  }

  /**
   * Whenever the standard encoding holds at most one `+` and at most one `/`, the
   * as-written encoder agrees with unpadded base64url.
   */
  lemma Base64UrlEncodeAgreesWhenFew(b: seq<byte>)
    requires Count(StandardBase64(b), '+') <= 1 && Count(StandardBase64(b), '/') <= 1
    ensures Base64UrlEncode(b) == Base64UrlUnpadded(b)
  {
    var s := StandardBase64(b);
    ReplaceFirstIsReplaceAll(s, '+', '-');
    ReplaceFirstKeepsCount(s, '+', '-', '/');
    ReplaceFirstIsReplaceAll(ReplaceFirst(s, '+', '-'), '/', '_');
    EncodeUrlTranslates(b);
  }

  /**
   * The three bytes FB EF BE encode to `++++`; the as-written encoder keeps three of
   * the four `+`, where base64url has `----`.
   */
  lemma Base64UrlEncodeKeepsLaterPlus()
    ensures StandardBase64([0xFB, 0xEF, 0xBE]) == "++++"
    ensures Base64UrlEncode([0xFB, 0xEF, 0xBE]) == "-+++"
    ensures Base64UrlUnpadded([0xFB, 0xEF, 0xBE]) == "----"
  {
    var b: seq<byte> := [0xFB, 0xEF, 0xBE];
    assert b[3..] == [];
    assert Encode(b, false) == "++++";
    assert Encode(b, true) == "----";
    assert ReplaceFirst("++++", '+', '-') == "-+++";
    assert ReplaceFirst("-+++", '/', '_') == "-+++";
  }

  // ---------------------------------------------------------------------------
  // authorize URLs

  const DiscordAuthorizeBase := "https://discord.com/api/oauth2/authorize"
  const TwitterAuthorizeBase := "https://twitter.com/i/oauth2/authorize"
  const TwitterConnectScope := "tweet.read offline.access users.read"

  /** The part of the Discord authorize URL that does not depend on the two optional arguments. */
  function DiscordRequiredUrl(clientId: string, encodeUri: string -> string, redirectUri: string, scope: string,
                              permissions: nat, state: string): (url: string)
    ensures StartsWith(url, DiscordAuthorizeBase + "?client_id=")
  {
    DiscordAuthorizeBase + "?client_id=" + clientId + "&redirect_uri=" + encodeUri(redirectUri)
      + "&response_type=code&scope=" + encodeUri(scope) + "&permissions=" + NatToDecimal(permissions) + "&state=" + state
  }

  /**
   * `discord.generateDiscordAuthUrl`: the fixed query, then `&guild_id=` when a guild
   * id is given and `&disable_guild_select=true` when the flag is set (its default).
   */
  function DiscordAuthUrl(clientId: string, encodeUri: string -> string, redirectUri: string, scope: string,
                          permissions: nat, state: string, guildId: string := "", disableGuildSelect: bool := true): (url: string)
    ensures StartsWith(url, DiscordRequiredUrl(clientId, encodeUri, redirectUri, scope, permissions, state))
  {
    var url := DiscordRequiredUrl(clientId, encodeUri, redirectUri, scope, permissions, state);
    var url := if guildId != "" then url + "&guild_id=" + guildId else url;
    var url := if disableGuildSelect then url + "&disable_guild_select=true" else url;
    url
  }

  lemma OccursInMiddle(a: string, t: string, b: string)
    ensures OccursAt(a + t + b, t, |a|) && Contains(a + t + b, t)
  {
    assert (a + t + b)[|a|..|a| + |t|] == t;
    assert OccursAt(a + t + b, t, |a|);
  }

  lemma EndsWithPair(x: string, a: string, b: string)
    ensures EndsWith(x + a + b, a + b)
  {
    assert (x + a + b)[|x|..] == a + b;
  }

  lemma ContainsViaPrefix(s: string, p: string, t: string)
    requires StartsWith(s, p) && EndsWith(p, t)
    ensures Contains(s, t)
  {
    assert s[|p| - |t|..|p|] == s[..|p|][|p| - |t|..];
    assert OccursAt(s, t, |p| - |t|);
  }

  lemma StartsWithAppend(x: string, a: string, y: string)
    requires StartsWith(x, y)
    ensures StartsWith(x + a, y)
  {
    assert (x + a)[..|y|] == x[..|y|];
  }

  /** Every Discord authorize URL carries the required query parameters. */
  lemma DiscordAuthUrlParams(clientId: string, encodeUri: string -> string, redirectUri: string, scope: string,
                             permissions: nat, state: string, guildId: string, disableGuildSelect: bool)
    ensures var url := DiscordAuthUrl(clientId, encodeUri, redirectUri, scope, permissions, state, guildId, disableGuildSelect);
      && Contains(url, "?client_id=" + clientId)
      && Contains(url, "&redirect_uri=" + encodeUri(redirectUri))
      && Contains(url, "&response_type=code&scope=" + encodeUri(scope))
      && Contains(url, "&permissions=" + NatToDecimal(permissions))
      && Contains(url, "&state=" + state)
  {
    var url := DiscordAuthUrl(clientId, encodeUri, redirectUri, scope, permissions, state, guildId, disableGuildSelect);
    var p1 := DiscordAuthorizeBase + "?client_id=" + clientId;
    var p2 := p1 + "&redirect_uri=" + encodeUri(redirectUri);
    var p3 := p2 + "&response_type=code&scope=" + encodeUri(scope);
    var p4 := p3 + "&permissions=" + NatToDecimal(permissions);
    var p5 := p4 + "&state=" + state;
    assert p5 == DiscordRequiredUrl(clientId, encodeUri, redirectUri, scope, permissions, state);
    StartsWithAppend(p4 + "&state=", state, p4);
    StartsWithAppend(p4, "&state=", p4);
    StartsWithAppend(p3 + "&permissions=", NatToDecimal(permissions), p3);
    StartsWithAppend(p3, "&permissions=", p3);
    StartsWithAppend(p2 + "&response_type=code&scope=", encodeUri(scope), p2);
    StartsWithAppend(p2, "&response_type=code&scope=", p2);
    StartsWithAppend(p1 + "&redirect_uri=", encodeUri(redirectUri), p1);
    StartsWithAppend(p1, "&redirect_uri=", p1);
    EndsWithPair(DiscordAuthorizeBase, "?client_id=", clientId);
    EndsWithPair(p1, "&redirect_uri=", encodeUri(redirectUri));
    EndsWithPair(p2, "&response_type=code&scope=", encodeUri(scope));
    EndsWithPair(p3, "&permissions=", NatToDecimal(permissions));
    EndsWithPair(p4, "&state=", state);
    ContainsViaPrefix(url, p5, "&state=" + state);
    ContainsViaPrefix(url, p4, "&permissions=" + NatToDecimal(permissions));
    ContainsViaPrefix(url, p3, "&response_type=code&scope=" + encodeUri(scope));
    ContainsViaPrefix(url, p2, "&redirect_uri=" + encodeUri(redirectUri));
    ContainsViaPrefix(url, p1, "?client_id=" + clientId);
  }

  /**
   * The optional parameters: the URL extends the one built with neither, by
   * `&guild_id=<guildId>` exactly when a guild id is given and by
   * `&disable_guild_select=true` exactly when the flag is set, in that order.
   */
  lemma DiscordAuthUrlOptionalParams(clientId: string, encodeUri: string -> string, redirectUri: string, scope: string,
                                     permissions: nat, state: string, guildId: string, disableGuildSelect: bool)
    ensures var bare := DiscordRequiredUrl(clientId, encodeUri, redirectUri, scope, permissions, state);
      var url := DiscordAuthUrl(clientId, encodeUri, redirectUri, scope, permissions, state, guildId, disableGuildSelect);
      && StartsWith(url, bare)
      && |url| == |bare| + (if guildId != "" then |"&guild_id="| + |guildId| else 0)
                         + (if disableGuildSelect then |"&disable_guild_select=true"| else 0)
      && (guildId != "" ==> OccursAt(url, "&guild_id=" + guildId, |bare|))
      && (disableGuildSelect ==> EndsWith(url, "&disable_guild_select=true"))
  {
    var bare := DiscordRequiredUrl(clientId, encodeUri, redirectUri, scope, permissions, state);
    var url := DiscordAuthUrl(clientId, encodeUri, redirectUri, scope, permissions, state, guildId, disableGuildSelect);
    var g := if guildId != "" then "&guild_id=" + guildId else "";
    var d := if disableGuildSelect then "&disable_guild_select=true" else "";
    assert url == bare + g + d;
    ThreeParts(bare, g, d);
  }

  lemma ThreeParts(a: string, b: string, c: string)
    ensures StartsWith(a + b + c, a) && OccursAt(a + b + c, b, |a|) && EndsWith(a + b + c, c)
  {
    assert (a + b + c)[..|a|] == a;
    OccursInMiddle(a, b, c);
    assert (a + b + c)[|a + b|..] == c;
  }

  /** Called without the two optional arguments, the URL disables guild selection. */
  lemma DiscordAuthUrlDefaults(clientId: string, encodeUri: string -> string, redirectUri: string, scope: string,
                               permissions: nat, state: string)
    ensures var url := DiscordAuthUrl(clientId, encodeUri, redirectUri, scope, permissions, state);
      EndsWith(url, "&disable_guild_select=true")
      && url == DiscordRequiredUrl(clientId, encodeUri, redirectUri, scope, permissions, state) + "&disable_guild_select=true"
  {
    DiscordAuthUrlOptionalParams(clientId, encodeUri, redirectUri, scope, permissions, state, "", true);
  }

  /**
   * `twitter.generateTwitterAuthUrl`: PKCE authorization request; the URL always ends
   * with the code challenge and the S256 method.
   */
  function TwitterAuthUrl(clientId: string, callbackUri: string, encodeUri: string -> string,
                          state: string, codeChallenge: string): (url: string)
    ensures StartsWith(url, TwitterAuthorizeBase + "?response_type=code&client_id=" + clientId + "&")
    ensures EndsWith(url, "&state=" + state + "&code_challenge=" + codeChallenge + "&code_challenge_method=S256")
  {
    var head := TwitterAuthorizeBase + "?response_type=code&client_id=" + clientId + "&";
    var tail := "&state=" + state + "&code_challenge=" + codeChallenge + "&code_challenge_method=S256";
    var url := head + "redirect_uri=" + encodeUri(callbackUri) + "&scope=" + encodeUri(TwitterConnectScope) + tail;
    assert url[..|head|] == head;
    assert url[|url| - |tail|..] == tail;
    url
  }
}
