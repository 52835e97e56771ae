/**
 * The deterministic core of the Strava heatmap proxy and auto-kudo bot
 * (index.js): the session cookie string built at start-up, the remember-id
 * read back from it, the tile proxy's URL templating and response shaping,
 * the CSRF meta-tag scan, and one cycle of the feed-kudo bot.
 *
 * Everything the program fetches is an input here: the probe, dashboard,
 * feed, kudo and tile replies are function parameters from the request to
 * the reply, and `Math.random()` is a function from the kudo's ordinal to a
 * ratio in [0, 1). A `process.exit` becomes an error value.
 */
module StravaUtility {
  import opened JsText

  /** Why the process would stop (`process.exit(1)`) or an `await` would throw. */
  datatype Fault =
    | MissingApiKey
    | MissingCookies
    | AuthenticationFailed
    | CsrfTagMissing
    | RequestThrew

  datatype Result<T> = Ok(value: T) | Err(fault: Fault)

  /** A header as the `Headers` iterator of `fetch` yields it: lower-case name, value. */
  datatype Header = Header(name: string, value: string)

  // ---------------------------------------------------------------------
  // Session cookies: getCookies, getFullCookies, extractStravaId
  // ---------------------------------------------------------------------

  /** `p` is what `^([^;]+);` captures in `value`: a non-empty run without `;`, followed by `;`. */
  ghost predicate CapturesPair(value: string, p: string) {
    |p| > 0 && ';' !in p && p + [';'] <= value
  }

  /** The match of `/^([^;]+);/` against one Set-Cookie value: the `name=value` text before the first `;`. */
  function CookiePair(value: string): (r: Option<string>)
    ensures r.Some? ==> CapturesPair(value, r.value)
    ensures r.None? ==> forall p :: !CapturesPair(value, p)
  {
    match IndexOf(value, ';')
    case None =>
      assert forall p :: CapturesPair(value, p) ==> value[|p|] == ';';
      None
    case Some(i) =>
      if i > 0 then
        assert value[..i] + [';'] == value[..i + 1];
        Some(value[..i])
      else
        None
  }

  /** At most one text is captured: the capture is determined by the value. */
  lemma CapturedPairUnique(value: string, p: string, q: string)
    requires CapturesPair(value, p) && CapturesPair(value, q)
    ensures p == q
  {
    assert p == value[..|p|] && q == value[..|q|];
    assert value[|p|] == ';' && value[|q|] == ';';
  }

  /** What one header contributes to the list `getCookies` builds. */
  function PairsOf(h: Header): seq<string> {
    if h.name == "set-cookie" then
      match CookiePair(h.value)
      case Some(p) => [p]
      case None => []
    else []
  }

  /** The cookie pairs of a probe response, in header order. */
  function SetCookiePairs(headers: seq<Header>): seq<string> {
    if headers == [] then []
    else SetCookiePairs(headers[..|headers| - 1]) + PairsOf(headers[|headers| - 1])
  }

  /** The pairs of two header lists in a row are the pairs of the first, then those of the second. */
  lemma {:induction false} SetCookiePairsAppend(a: seq<Header>, b: seq<Header>)
    ensures SetCookiePairs(a + b) == SetCookiePairs(a) + SetCookiePairs(b)
    decreases |b|
  {
    if b != [] {
      var last := b[|b| - 1];
      var front := b[..|b| - 1];
      assert (a + b)[..|a + b| - 1] == a + front;
      assert (a + b)[|a + b| - 1] == last;
      assert SetCookiePairs(a + b) == SetCookiePairs(a + front) + PairsOf(last);
      assert SetCookiePairs(b) == SetCookiePairs(front) + PairsOf(last);
      SetCookiePairsAppend(a, front);
    } else {
      assert a + b == a;
    }
  }

  /**
   * Every pair kept is the capture of a set-cookie header: non-empty, free of
   * `;`, and followed by `;` in that header's value.
   */
  lemma {:induction false} SetCookiePairsSound(headers: seq<Header>, k: nat)
    requires k < |SetCookiePairs(headers)|
    ensures exists j :: 0 <= j < |headers| && headers[j].name == "set-cookie"
                        && CapturesPair(headers[j].value, SetCookiePairs(headers)[k])
    decreases |headers|
  {
    var front := headers[..|headers| - 1];
    var last := headers[|headers| - 1];
    if k < |SetCookiePairs(front)| {
      SetCookiePairsSound(front, k);
      var j :| 0 <= j < |front| && front[j].name == "set-cookie"
               && CapturesPair(front[j].value, SetCookiePairs(front)[k]);
      assert headers[j] == front[j];
    } else {
      assert PairsOf(last) != [];
      assert headers[|headers| - 1] == last;
    }
  }

  /** A pair holds no `;`: the property the composite cookie string relies on. */
  lemma SetCookiePairsHaveNoSeparator(headers: seq<Header>)
    ensures forall k :: 0 <= k < |SetCookiePairs(headers)| ==> ';' !in SetCookiePairs(headers)[k]
  {
    forall k | 0 <= k < |SetCookiePairs(headers)|
      ensures ';' !in SetCookiePairs(headers)[k]
    {
      SetCookiePairsSound(headers, k);
    }
  }

  /** `getCookies(res)`: walks the response headers and pushes the pair of each matching set-cookie value. */
  method GetCookies(headers: seq<Header>) returns (cookies: seq<string>)
    ensures cookies == SetCookiePairs(headers)
  {
    cookies := [];
    var i := 0;
    while i < |headers|
      invariant 0 <= i <= |headers|
      invariant cookies == SetCookiePairs(headers[..i])
    {
      var h := headers[i];
      assert headers[..i + 1][..i] == headers[..i];
      if h.name == "set-cookie" {
        var stripped := CookiePair(h.value);
        if stripped.Some? {
          cookies := cookies + [stripped.value];
        }
      }
      i := i + 1;
    }
    assert headers[..i] == headers;
  }

  /** The reply to the authenticated probe of `https://www.strava.com/maps`. */
  datatype ProbeReply = ProbeReply(status: int, headers: seq<Header>) | ProbeThrew

  /** The composite cookie string: the probe's pairs, then the seed, joined by `;`. */
  function CompositeCookies(headers: seq<Header>, seed: string): string {
    Join(SetCookiePairs(headers) + [seed], ';')
  }

  /** `getFullCookies(seed)`: fails unless the probe answered 200, else merges its cookies before the seed. */
  method GetFullCookies(seed: string, probe: ProbeReply) returns (r: Result<string>)
    ensures probe.ProbeThrew? ==> r == Err(RequestThrew)
    ensures probe.ProbeReply? && probe.status != 200 ==> r == Err(AuthenticationFailed)
    ensures probe.ProbeReply? && probe.status == 200 ==> r == Ok(CompositeCookies(probe.headers, seed))
  {
    if probe.ProbeThrew? {
      return Err(RequestThrew);
    }
    if probe.status != 200 {
      return Err(AuthenticationFailed);
    }
    var cookies := GetCookies(probe.headers);
    return Ok(Join(cookies + [seed], ';'));
  }

  /** The seed ends the composite string verbatim, after the probe's pairs and one `;` each. */
  lemma CompositeEndsWithSeed(headers: seq<Header>, seed: string)
    ensures var c := CompositeCookies(headers, seed);
      |c| >= |seed| && c[|c| - |seed|..] == seed
      && (SetCookiePairs(headers) == [] ==> c == seed)
      && (SetCookiePairs(headers) != [] ==> c == Join(SetCookiePairs(headers), ';') + [';'] + seed)
  {
    JoinSnoc(SetCookiePairs(headers), seed, ';');
  }

  /** Splitting the composite on `;` gives the probe's pairs, then the parts of the seed. */
  lemma CompositeParts(headers: seq<Header>, seed: string)
    ensures Split(CompositeCookies(headers, seed), ';') == SetCookiePairs(headers) + Split(seed, ';')
  {
    SetCookiePairsHaveNoSeparator(headers);
    SplitJoinPrefix(SetCookiePairs(headers), seed, ';');
  }

  const RememberPrefix: string := "strava_remember_id="

  /** A part (already trimmed) that `extractStravaId` accepts. */
  predicate IsRememberPart(part: string) {
    RememberPrefix <= part
  }

  /** Each part of the list, trimmed: `parts.map(c => c.trim())`. */
  function TrimAll(parts: seq<string>): (r: seq<string>)
    ensures |r| == |parts|
    ensures forall k :: 0 <= k < |parts| ==> r[k] == Trim(parts[k])
  {
    if parts == [] then [] else [Trim(parts[0])] + TrimAll(parts[1..])
  }

  /** The position of the first part that starts with the prefix, if any. */
  function FirstRememberIndex(parts: seq<string>): (r: Option<nat>)
    ensures r.None? <==> forall k :: 0 <= k < |parts| ==> !IsRememberPart(parts[k])
    ensures r.Some? ==> r.value < |parts| && IsRememberPart(parts[r.value])
    ensures r.Some? ==> forall j :: 0 <= j < r.value ==> !IsRememberPart(parts[j])
  {
    if parts == [] then None
    else if IsRememberPart(parts[0]) then Some(0)
    else match FirstRememberIndex(parts[1..])
      case None => None
      case Some(i) => Some(i + 1)
  }

  /** `parts.find(c => c.startsWith('strava_remember_id='))`. */
  function FindRememberPart(parts: seq<string>): Option<string> {
    match FirstRememberIndex(parts)
    case None => None
    case Some(k) => Some(parts[k])
  }

  /** The first accepted part of two lists in a row: the first list's, else the second's. */
  lemma FindRememberPartAppend(a: seq<string>, b: seq<string>)
    ensures FindRememberPart(a + b) == if FindRememberPart(a).Some? then FindRememberPart(a) else FindRememberPart(b)
  {
    var ab := a + b;
    var i, ia, ib := FirstRememberIndex(ab), FirstRememberIndex(a), FirstRememberIndex(b);
    if ia.Some? {
      assert ab[ia.value] == a[ia.value];
      assert i.value <= ia.value;
    } else if ib.Some? {
      assert ab[|a| + ib.value] == b[ib.value];
      assert i.value <= |a| + ib.value;
      assert ab[i.value] == b[i.value - |a|];
    } else {
      forall k | 0 <= k < |ab|
        ensures !IsRememberPart(ab[k])
      {
        if k < |a| {
          assert ab[k] == a[k];
        } else {
          assert ab[k] == b[k - |a|];
        }
      }
    }
  }

  lemma {:induction false} TrimAllAppend(a: seq<string>, b: seq<string>)
    ensures TrimAll(a + b) == TrimAll(a) + TrimAll(b)
  {
    if a != [] {
      assert (a + b)[1..] == a[1..] + b;
      TrimAllAppend(a[1..], b);
    }
  }

  /** `RememberPrefix` holds no `=`, so its first `=` is its last character. */
  lemma RememberPrefixEquals()
    ensures IndexOf(RememberPrefix, '=') == Some(|RememberPrefix| - 1)
  {
    var name := "strava_remember_id";
    assert '=' !in name;
    assert RememberPrefix == name + ['='];
    assert RememberPrefix[..|RememberPrefix| - 1] == name;
  }

  /** `part.split('=')[1]` of an accepted part is the first `=`-part of the text after the prefix. */
  lemma SplitAfterPrefix(part: string)
    requires IsRememberPart(part)
    ensures |Split(part, '=')| >= 2
    ensures Split(part, '=')[1] == Split(part[|RememberPrefix|..], '=')[0]
  {
    var n := |RememberPrefix|;
    RememberPrefixEquals();
    IndexOfPrefix(part, RememberPrefix, '=', n - 1);
    SplitAt(part, '=', n - 1);
  }

  /** `id` is the text between the first and the second `=` (or the end) of an accepted part. */
  ghost predicate IsRememberValue(part: string, id: string) {
    && RememberPrefix + id <= part
    && '=' !in id
    && (|part| == |RememberPrefix| + |id| || part[|RememberPrefix| + |id|] == '=')
  }

  /** Part `k` is the first whose trimmed text `extractStravaId` accepts. */
  ghost predicate IsFirstRememberPart(parts: seq<string>, k: int) {
    && 0 <= k < |parts|
    && IsRememberPart(Trim(parts[k]))
    && forall j :: 0 <= j < k ==> !IsRememberPart(Trim(parts[j]))
  }

  /** `part.split('=')[1]` of an accepted part is the text between its first and its second `=`. */
  lemma RememberValue(part: string)
    requires IsRememberPart(part)
    ensures |Split(part, '=')| >= 2
    ensures IsRememberValue(part, Split(part, '=')[1])
  {
    var n := |RememberPrefix|;
    var rest := part[n..];
    SplitAfterPrefix(part);
    FirstSplitPart(rest, '=');
    assert part == RememberPrefix + rest;
  }

  /**
   * `extractStravaId()`: of the cookie string's `;`-separated parts, trimmed,
   * the first that starts with `strava_remember_id=`, and of it the text
   * between its first and its second `=`; None (`undefined`) when no part does.
   */
  function ExtractStravaId(cookies: string): Option<string> {
    match FindRememberPart(TrimAll(Split(cookies, ';')))
    case None => None
    case Some(part) => Some(RememberIdOf(part))
  }

  /** `idPart.split('=')[1]`. */
  function RememberIdOf(part: string): (id: string)
    requires IsRememberPart(part)
    ensures IsRememberValue(part, id)
  {
    RememberValue(part);
    Split(part, '=')[1]
  }

  /** `find` over the trimmed parts yields the trimmed text of the first accepted part. */
  lemma FirstOfTrimmed(raw: seq<string>)
    ensures FindRememberPart(TrimAll(raw)).None? <==> forall k :: 0 <= k < |raw| ==> !IsRememberPart(Trim(raw[k]))
    ensures FindRememberPart(TrimAll(raw)).Some? ==>
      exists k :: IsFirstRememberPart(raw, k) && FindRememberPart(TrimAll(raw)).value == Trim(raw[k])
  {
    var parts := TrimAll(raw);
    var i := FirstRememberIndex(parts);
    if i.Some? {
      assert IsFirstRememberPart(raw, i.value);
    }
  }

  /**
   * Of the `;`-separated `parts` of the cookie string, the id is found exactly
   * when some trimmed part starts with the prefix; it then is the remember
   * value of the first such part.
   */
  lemma ExtractStravaIdSpec(cookies: string, parts: seq<string>)
    requires parts == Split(cookies, ';')
    ensures ExtractStravaId(cookies).None? <==> forall k :: 0 <= k < |parts| ==> !IsRememberPart(Trim(parts[k]))
    ensures ExtractStravaId(cookies).Some? ==>
      exists k :: IsFirstRememberPart(parts, k) && IsRememberValue(Trim(parts[k]), ExtractStravaId(cookies).value)
  {
    FirstOfTrimmed(parts);
    var found := FindRememberPart(TrimAll(parts));
    if found.Some? {
      var k :| IsFirstRememberPart(parts, k) && found.value == Trim(parts[k]);
      assert ExtractStravaId(cookies).value == RememberIdOf(Trim(parts[k]));
    }
  }

  /** The remember value is determined by the part: at most one text satisfies the predicate. */
  lemma RememberValueUnique(part: string, id: string, id': string)
    requires IsRememberValue(part, id) && IsRememberValue(part, id')
    ensures id == id'
  {
    var n := |RememberPrefix|;
    assert id == part[n..n + |id|] && id' == part[n..n + |id'|];
  }

  /**
   * Unless the probe itself set a remember cookie, the id read from the
   * composite string is the one the seed carries.
   */
  lemma CompositeKeepsSeedId(headers: seq<Header>, seed: string)
    requires forall k :: 0 <= k < |SetCookiePairs(headers)| ==> !IsRememberPart(Trim(SetCookiePairs(headers)[k]))
    ensures ExtractStravaId(CompositeCookies(headers, seed)) == ExtractStravaId(seed)
  {
    var pairs := SetCookiePairs(headers);
    var rest := Split(seed, ';');
    CompositeParts(headers, seed);
    TrimAllAppend(pairs, rest);
    FindRememberPartAppend(TrimAll(pairs), TrimAll(rest));
    FirstOfTrimmed(pairs);
  }

  // ---------------------------------------------------------------------
  // Tile proxy: PERSONAL_MAP_URL, GLOBAL_MAP_URL, handleTileRequest
  // ---------------------------------------------------------------------

  /** The regex class `\w`. */
  predicate IsWordChar(c: char) {
    'a' <= c <= 'z' || 'A' <= c <= 'Z' || '0' <= c <= '9' || c == '_'
  }

  /** A text `\w+` matches whole. */
  predicate IsKey(k: string) {
    |k| > 0 && forall j :: 0 <= j < |k| ==> IsWordChar(k[j])
  }

  /** The length of the run of word characters that starts `s`. */
  function WordRun(s: string): (n: nat)
    ensures n <= |s|
    ensures forall j :: 0 <= j < n ==> IsWordChar(s[j])
    ensures n == |s| || !IsWordChar(s[n])
  {
    if s != [] && IsWordChar(s[0]) then 1 + WordRun(s[1..]) else 0
  }

  /** The key of a match of `/\{(\w+)\}/` that starts exactly at the start of `s`, if there is one. */
  function PlaceholderAt(s: string): (r: Option<string>)
    ensures r.Some? ==> IsKey(r.value) && |r.value| + 2 <= |s| && s[..|r.value| + 2] == "{" + r.value + "}"
  {
    if s != [] && s[0] == '{' then
      var n := WordRun(s[1..]);
      if n > 0 && n + 1 < |s| && s[n + 1] == '}' then
        assert s[..n + 2] == "{" + s[1..n + 1] + "}";
        Some(s[1..n + 1])
      else
        None
    else
      None
  }

  /** Every `{key}` at the start of a text is the match `PlaceholderAt` finds. */
  lemma PlaceholderFound(k: string, b: string)
    requires IsKey(k)
    ensures PlaceholderAt("{" + k + "}" + b) == Some(k)
  {
    var t := "{" + k + "}" + b;
    var n := WordRun(t[1..]);
    assert forall j :: 0 <= j < |k| ==> t[1..][j] == k[j];
    assert t[1..][|k|] == '}';
    assert t[1..|k| + 1] == k;
  }

  /** The fields of `data` in `handleTileRequest`; `stravaId` is None when `extractStravaId()` found none. */
  datatype TileFields = TileFields(
    stravaId: Option<string>, color: string, activity: string,
    x: string, y: string, z: string, res: string)

  /** The names of the fields of `data`. */
  const FieldNames: set<string> := {"strava_id", "color", "activity", "x", "y", "z", "res"}

  /** `data[key]` as the replacement callback turns it into text: a missing value reads `undefined`. */
  function FieldText(d: TileFields, key: string): string {
    if key == "strava_id" then (match d.stravaId case Some(id) => id case None => "undefined")
    else if key == "color" then d.color
    else if key == "activity" then d.activity
    else if key == "x" then d.x
    else if key == "y" then d.y
    else if key == "z" then d.z
    else if key == "res" then d.res
    else "undefined"
  }

  /** `template.replace(/\{(\w+)\}/g, (_, key) => data[key])`: scans left to right, replacing every match. */
  function Render(t: string, d: TileFields): string
    decreases |t|
  {
    if t == [] then []
    else match PlaceholderAt(t)
      case Some(k) => FieldText(d, k) + Render(t[|k| + 2..], d)
      case None => [t[0]] + Render(t[1..], d)
  }

  /** A character that does not start a match is copied. */
  lemma RenderCopies(t: string, d: TileFields)
    requires t != [] && t[0] != '{'
    ensures Render(t, d) == [t[0]] + Render(t[1..], d)
  {
  }

  /** Text without `{` is copied unchanged. */
  lemma {:induction false} RenderLiteral(a: string, b: string, d: TileFields)
    requires '{' !in a
    ensures Render(a + b, d) == a + Render(b, d)
  {
    if a != [] {
      var t := a + b;
      assert t[0] == a[0];
      assert t[1..] == a[1..] + b;
      RenderCopies(t, d);
      RenderLiteral(a[1..], b, d);
      assert a == [a[0]] + a[1..];
    } else {
      assert a + b == b;
    }
  }

  /** A `{key}` placeholder is replaced by the field it names. */
  lemma RenderHole(k: string, b: string, d: TileFields)
    requires IsKey(k)
    ensures Render("{" + k + "}" + b, d) == FieldText(d, k) + Render(b, d)
  {
    var t := "{" + k + "}" + b;
    PlaceholderFound(k, b);
    assert t[|k| + 2..] == b;
  }

  /** A template as the program writes it: literal text and `{key}` placeholders, front to back. */
  datatype Template = End | Lit(text: string, rest: Template) | Hole(key: string, rest: Template)

  /** The template string. */
  function Flatten(t: Template): string {
    match t
    case End => ""
    case Lit(s, rest) => s + Flatten(rest)
    case Hole(k, rest) => "{" + k + "}" + Flatten(rest)
  }

  /** The template with every placeholder replaced by the field it names. */
  function Expand(t: Template, d: TileFields): string {
    match t
    case End => ""
    case Lit(s, rest) => s + Expand(rest, d)
    case Hole(k, rest) => FieldText(d, k) + Expand(rest, d)
  }

  /** Literal text holds no `{`, and every placeholder names a field of `data`. */
  predicate TemplateOk(t: Template) {
    match t
    case End => true
    case Lit(s, rest) => '{' !in s && TemplateOk(rest)
    case Hole(k, rest) => IsKey(k) && k in FieldNames && TemplateOk(rest)
  }

  /** Rendering the template string does exactly the structured replacement. */
  lemma {:induction false} RenderTemplate(t: Template, d: TileFields)
    requires TemplateOk(t)
    ensures Render(Flatten(t), d) == Expand(t, d)
  {
    match t
    case End =>
    case Lit(s, rest) =>
      RenderTemplate(rest, d);
      RenderLiteral(s, Flatten(rest), d);
    case Hole(k, rest) =>
      RenderTemplate(rest, d);
      assert "{" + k + "}" + Flatten(rest) == Flatten(t);
      RenderHole(k, Flatten(rest), d);
  }

  /** When no field value holds `{`, no `{...}` token is left in the expanded URL. */
  lemma {:induction false} ExpandLeavesNoBrace(t: Template, d: TileFields)
    requires TemplateOk(t)
    requires d.stravaId.Some? ==> '{' !in d.stravaId.value
    requires '{' !in d.color && '{' !in d.activity && '{' !in d.x && '{' !in d.y && '{' !in d.z && '{' !in d.res
    ensures '{' !in Expand(t, d)
  {
    match t
    case End =>
    case Lit(s, rest) =>
      ExpandLeavesNoBrace(rest, d);
    case Hole(k, rest) =>
      ExpandLeavesNoBrace(rest, d);
      assert '{' !in "undefined";
  }

  /** `{color}/{z}/{x}/{y}{res}`, the path both templates share, followed by `rest`. */
  function TilePath(rest: Template): Template {
    Hole("color", Lit("/", Hole("z", Lit("/", Hole("x", Lit("/", Hole("y", Hole("res", rest))))))))
  }

  /** The query of PERSONAL_MAP_URL: the activity filter and the fixed visibility flags. */
  const PersonalQuery: Template :=
    Lit(".png?filter_type=", Hole("activity",
    Lit("&include_everyone=true", Lit("&include_followers_only=true", Lit("&include_only_me=true",
    Lit("&respect_privacy_zones=false", Lit("&include_commutes=true", End)))))))

  /** PERSONAL_MAP_URL. */
  function PersonalMapTemplate(): Template {
    Lit("https://personal-heatmaps-", Lit("external.strava.com/tiles/", Hole("strava_id",
    Lit("/", TilePath(PersonalQuery)))))
  }

  /** GLOBAL_MAP_URL. */
  function GlobalMapTemplate(): Template {
    Lit("https://content-a.strava.com/", Lit("identified/globalheat/", Hole("activity",
    Lit("/", TilePath(Lit(".png?v=19", End))))))
  }

  /** The shared path `{color}/{z}/{x}/{y}{res}` keeps a well-formed template well formed. */
  lemma TilePathOk(rest: Template)
    requires TemplateOk(rest)
    ensures TemplateOk(TilePath(rest))
  {
    assert IsKey("res") && IsKey("y") && IsKey("x") && IsKey("z") && IsKey("color");
    var t := Hole("y", Hole("res", rest));
    assert TemplateOk(t);
    t := Lit("/", Hole("x", Lit("/", t)));
    assert TemplateOk(t);
    t := Lit("/", Hole("z", t));
    assert TemplateOk(t);
    assert TemplateOk(Hole("color", t));
  }

  /** Two literal facts of PersonalQueryOk, in a lemma of their own so that each proof sees few string literals. */
  lemma FlagLiteralsHaveNoBrace()
    ensures '{' !in "&include_everyone=true" && '{' !in "&include_followers_only=true"
  {
  }

  /** Two more literal facts of PersonalQueryOk, apart for the same reason. */
  lemma MoreFlagLiteralsHaveNoBrace()
    ensures '{' !in "&include_only_me=true" && '{' !in "&respect_privacy_zones=false"
  {
  }

  /** The query of PERSONAL_MAP_URL is well formed: one `{activity}` placeholder and literal flags. */
  lemma PersonalQueryOk()
    ensures TemplateOk(PersonalQuery)
  {
    assert '{' !in "&include_commutes=true";
    var t := Lit("&include_commutes=true", End);
    MoreFlagLiteralsHaveNoBrace();
    t := Lit("&include_only_me=true", Lit("&respect_privacy_zones=false", t));
    assert TemplateOk(t);
    FlagLiteralsHaveNoBrace();
    t := Lit("&include_everyone=true", Lit("&include_followers_only=true", t));
    assert TemplateOk(t);
    assert IsKey("activity");
    t := Hole("activity", t);
    assert TemplateOk(t);
    assert '{' !in ".png?filter_type=";
  }

  /** The host part of either template, `origin` and `path` then the `{key}` and a `/`, keeps a well-formed rest well formed. */
  lemma HostOk(origin: string, path: string, key: string, rest: Template)
    requires '{' !in origin && '{' !in path && IsKey(key) && key in FieldNames && TemplateOk(rest)
    ensures TemplateOk(Lit(origin, Lit(path, Hole(key, Lit("/", rest)))))
  {
    assert TemplateOk(Lit("/", rest));
  }

  /** The host literals of PERSONAL_MAP_URL hold no `{`; apart so that each proof sees few string literals. */
  lemma PersonalHostLiterals()
    ensures '{' !in "https://personal-heatmaps-" && '{' !in "external.strava.com/tiles/" && IsKey("strava_id")
  {
  }

  /** The host literals of GLOBAL_MAP_URL hold no `{`; apart for the same reason. */
  lemma GlobalHostLiterals()
    ensures '{' !in "https://content-a.strava.com/" && '{' !in "identified/globalheat/" && IsKey("activity")
  {
  }

  /** Every placeholder of PERSONAL_MAP_URL names a field of `data`, and its literal text has no `{`. */
  lemma PersonalMapTemplateOk()
    ensures TemplateOk(PersonalMapTemplate())
  {
    PersonalQueryOk();
    TilePathOk(PersonalQuery);
    PersonalHostLiterals();
    HostOk("https://personal-heatmaps-", "external.strava.com/tiles/", "strava_id", TilePath(PersonalQuery));
  }

  /** Every placeholder of GLOBAL_MAP_URL names a field of `data`, and its literal text has no `{`. */
  lemma GlobalMapTemplateOk()
    ensures TemplateOk(GlobalMapTemplate())
  {
    var tail := Lit(".png?v=19", End);
    assert TemplateOk(tail);
    TilePathOk(tail);
    GlobalHostLiterals();
    HostOk("https://content-a.strava.com/", "identified/globalheat/", "activity", TilePath(tail));
  }

  /** The route parameters of a tile request; one the route did not supply is None. */
  datatype TileRequest = TileRequest(
    path: string, color: Option<string>, activity: Option<string>,
    z: Option<string>, x: Option<string>, y: Option<string>)

  /** A parameter JavaScript reads as truthy: present and not empty. */
  predicate Given(p: Option<string>) {
    p.Some? && p.value != ""
  }

  predicate ParamsGiven(req: TileRequest) {
    Given(req.color) && Given(req.activity) && Given(req.z) && Given(req.x) && Given(req.y)
  }

  datatype MapKind = Personal | Global

  /** The heatmap a request path asks for. */
  function KindOf(path: string): (k: MapKind)
    ensures k == Personal <==> "/personal" <= path
  {
    if "/personal" <= path then Personal else Global
  }

  function TemplateFor(k: MapKind): Template {
    match k
    case Personal => PersonalMapTemplate()
    case Global => GlobalMapTemplate()
  }

  /** The template each kind of request is rendered from is well formed. */
  lemma TemplateForOk(k: MapKind)
    ensures TemplateOk(TemplateFor(k))
  {
    match k
    case Personal => PersonalMapTemplateOk();
    case Global => GlobalMapTemplateOk();
  }

  /** The `data` record of a tile request; the `@2x.png` route passes `@2x`, the `.png` route nothing. */
  function TileFieldsOf(req: TileRequest, stravaId: Option<string>, retina: bool): (d: TileFields)
    requires ParamsGiven(req)
    ensures d.res == "" || d.res == "@2x"
    ensures d.res == "@2x" <==> retina
    ensures d.stravaId == stravaId
    ensures d.color == req.color.value && d.activity == req.activity.value
    ensures d.x == req.x.value && d.y == req.y.value && d.z == req.z.value
  {
    TileFields(stravaId, req.color.value, req.activity.value,
      req.x.value, req.y.value, req.z.value, if retina then "@2x" else "")
  }

  /**
   * The upstream tile URL: the template of the request's kind with `data`
   * substituted in, for the athlete id `extractStravaId()` gave.
   */
  function TileUrl(req: TileRequest, stravaId: Option<string>, retina: bool): string
    requires ParamsGiven(req)
  {
    Render(Flatten(TemplateFor(KindOf(req.path))), TileFieldsOf(req, stravaId, retina))
  }

  /** The tile URL is the template of the request's kind with each placeholder replaced by its field. */
  lemma TileUrlExpands(req: TileRequest, stravaId: Option<string>, retina: bool)
    requires ParamsGiven(req)
    ensures TileUrl(req, stravaId, retina)
      == Expand(TemplateFor(KindOf(req.path)), TileFieldsOf(req, stravaId, retina))
  {
    TemplateForOk(KindOf(req.path));
    RenderTemplate(TemplateFor(KindOf(req.path)), TileFieldsOf(req, stravaId, retina));
  }

  /** No `{...}` token survives in the tile URL when no substituted value brings one in. */
  lemma TileUrlHasNoPlaceholder(req: TileRequest, stravaId: Option<string>, retina: bool)
    requires ParamsGiven(req)
    requires '{' !in req.color.value && '{' !in req.activity.value
    requires '{' !in req.x.value && '{' !in req.y.value && '{' !in req.z.value
    requires stravaId.Some? ==> '{' !in stravaId.value
    ensures '{' !in TileUrl(req, stravaId, retina)
  {
    var d := TileFieldsOf(req, stravaId, retina);
    TileUrlExpands(req, stravaId, retina);
    TemplateForOk(KindOf(req.path));
    assert '{' !in "@2x";
    ExpandLeavesNoBrace(TemplateFor(KindOf(req.path)), d);
  }

  /** Two `data` records that agree on every placeholder of the template expand it alike. */
  predicate AgreeOn(t: Template, d: TileFields, e: TileFields) {
    match t
    case End => true
    case Lit(_, rest) => AgreeOn(rest, d, e)
    case Hole(k, rest) => FieldText(d, k) == FieldText(e, k) && AgreeOn(rest, d, e)
  }

  lemma {:induction false} ExpandAgrees(t: Template, d: TileFields, e: TileFields)
    requires AgreeOn(t, d, e)
    ensures Expand(t, d) == Expand(t, e)
  {
    match t
    case End =>
    case Lit(_, rest) => ExpandAgrees(rest, d, e);
    case Hole(_, rest) => ExpandAgrees(rest, d, e);
  }

  /** GLOBAL_MAP_URL has no `{strava_id}`: records differing only there expand it alike. */
  lemma GlobalIgnoresStravaId(d: TileFields, e: TileFields)
    requires d.color == e.color && d.activity == e.activity && d.res == e.res
    requires d.x == e.x && d.y == e.y && d.z == e.z
    ensures Expand(GlobalMapTemplate(), d) == Expand(GlobalMapTemplate(), e)
  {
    assert FieldText(d, "res") == d.res && FieldText(e, "res") == e.res;
    assert FieldText(d, "y") == d.y && FieldText(e, "y") == e.y;
    assert FieldText(d, "x") == d.x && FieldText(e, "x") == e.x;
    assert FieldText(d, "z") == d.z && FieldText(e, "z") == e.z;
    assert FieldText(d, "color") == d.color && FieldText(e, "color") == e.color;
    assert FieldText(d, "activity") == d.activity && FieldText(e, "activity") == e.activity;
    var t := Lit(".png?v=19", End);
    assert AgreeOn(t, d, e);
    t := Hole("res", t);
    assert AgreeOn(t, d, e);
    t := Hole("y", t);
    assert AgreeOn(t, d, e);
    t := Lit("/", Hole("x", Lit("/", t)));
    assert AgreeOn(t, d, e);
    t := Hole("color", Lit("/", Hole("z", t)));
    assert AgreeOn(t, d, e);
    t := Hole("activity", Lit("/", t));
    assert AgreeOn(t, d, e);
    ExpandAgrees(GlobalMapTemplate(), d, e);
  }

  /** A global tile is fetched from the same URL whatever athlete id the session carries. */
  lemma GlobalTileUrlIgnoresStravaId(req: TileRequest, stravaId: Option<string>, other: Option<string>, retina: bool)
    requires ParamsGiven(req) && KindOf(req.path) == Global
    ensures TileUrl(req, stravaId, retina) == TileUrl(req, other, retina)
  {
    TileUrlExpands(req, stravaId, retina);
    TileUrlExpands(req, other, retina);
    GlobalIgnoresStravaId(TileFieldsOf(req, stravaId, retina), TileFieldsOf(req, other, retina));
  }

  /** What the proxy sends upstream: the URL and the `Cookie` header. */
  datatype UpstreamRequest = UpstreamRequest(url: string, cookie: string)

  /** The upstream reply, or the exception `fetch` or `arrayBuffer()` threw. */
  datatype UpstreamReply = UpstreamReply(status: int, statusText: string, body: seq<bv8>) | UpstreamThrew

  datatype Body = Text(text: string) | Png(bytes: seq<bv8>)

  /** The status, the headers the handler sets, and the body of the proxy's response. */
  datatype HttpResponse = HttpResponse(status: int, headers: seq<Header>, body: Body)

  /** The request sent upstream, if any, and the response to the client. */
  datatype TileExchange = TileExchange(sent: Option<UpstreamRequest>, response: HttpResponse)

  /** `Env.TILE_CACHE_SECS || 0`, where None stands for NaN (what `parseInt` makes of a missing value). */
  function CacheSeconds(tileCacheSecs: Option<int>): (n: int)
    ensures tileCacheSecs.None? ==> n == 0
    ensures tileCacheSecs.Some? ==> n == tileCacheSecs.value
  {
    match tileCacheSecs
    case None => 0
    case Some(n) => n
  }

  function CacheControl(tileCacheSecs: Option<int>): string {
    "max-age=" + IntToDecimal(CacheSeconds(tileCacheSecs))
  }

  /** The `Cache-Control` value reads back as the configured seconds, or 0 when unset. */
  lemma CacheControlReadsBack(tileCacheSecs: Option<int>)
    requires CacheSeconds(tileCacheSecs) >= 0
    ensures var v := CacheControl(tileCacheSecs);
      |v| > 8 && v[..8] == "max-age=" && IsDigits(v[8..]) && DecimalValue(v[8..]) == CacheSeconds(tileCacheSecs)
  {
    var n := CacheSeconds(tileCacheSecs);
    var v := CacheControl(tileCacheSecs);
    assert v[8..] == NatToDecimal(n);
    DecimalRoundTrip(n);
  }

  /** An unset or NaN cache time gives `max-age=0`. */
  lemma CacheControlDefault()
    ensures CacheControl(None) == "max-age=0"
  {
    assert NatToDecimal(0) == "0";
  }

  /** How the handler answers once the upstream reply (or exception) is in. */
  function TileResponse(reply: UpstreamReply, tileCacheSecs: Option<int>): (r: HttpResponse)
    ensures r.body.Png? <==> reply.UpstreamReply? && 200 <= reply.status <= 299
    ensures reply.UpstreamThrew? ==> r == HttpResponse(500, [], Text("Internal server error"))
    ensures reply.UpstreamReply? && !(200 <= reply.status <= 299) ==>
      r == HttpResponse(reply.status, [], Text("Error fetching tile: " + reply.statusText))
    ensures r.body.Png? ==>
      && r.status == 200 && r.body.bytes == reply.body
      && r.headers == [Header("Content-Type", "image/png"), Header("Cache-Control", CacheControl(tileCacheSecs))]
  {
    match reply
    case UpstreamThrew => HttpResponse(500, [], Text("Internal server error"))
    case UpstreamReply(status, statusText, body) =>
      if 200 <= status <= 299 then
        HttpResponse(200, [Header("Content-Type", "image/png"), Header("Cache-Control", CacheControl(tileCacheSecs))], Png(body))
      else
        HttpResponse(status, [], Text("Error fetching tile: " + statusText))
  }

  /**
   * handleTileRequest: check the parameters, build the upstream URL from the
   * template of the request's kind, fetch it with the session cookies, and
   * answer with the tile or the error.
   */
  function ServeTile(
    req: TileRequest, cookies: string, tileCacheSecs: Option<int>, retina: bool,
    upstream: UpstreamRequest -> UpstreamReply): (r: TileExchange)
    ensures r.sent.None? <==> !ParamsGiven(req)
    ensures r.sent.None? ==> r.response == HttpResponse(400, [], Text("Invalid parameters"))
    ensures r.sent.Some? ==>
      && r.sent.value.cookie == cookies
      && r.sent.value.url == TileUrl(req, ExtractStravaId(cookies), retina)
      && r.response == TileResponse(upstream(r.sent.value), tileCacheSecs)
  {
    if !ParamsGiven(req) then
      TileExchange(None, HttpResponse(400, [], Text("Invalid parameters")))
    else
      var sent := UpstreamRequest(TileUrl(req, ExtractStravaId(cookies), retina), cookies);
      TileExchange(Some(sent), TileResponse(upstream(sent), tileCacheSecs))
  }

  // ---------------------------------------------------------------------
  // The CSRF meta tag: getCsrfToken
  // ---------------------------------------------------------------------

  /** The case folding of a case-insensitive regex: ASCII letters to upper case, everything else kept. */
  function Upper(c: char): char {
    if 'a' <= c <= 'z' then (c as int - 32) as char else c
  }

  /** `a` matches the literal `lit` of a case-insensitive pattern. */
  predicate CiEq(a: string, lit: string) {
    |a| == |lit| && forall j :: 0 <= j < |a| ==> Upper(a[j]) == Upper(lit[j])
  }

  predicate IsQuote(c: char) {
    c == '"' || c == '\''
  }

  /** The length of the run of whitespace that starts `s`. */
  function SpaceRun(s: string): (n: nat)
    ensures n <= |s|
    ensures forall j :: 0 <= j < n ==> IsSpace(s[j])
    ensures n == |s| || !IsSpace(s[n])
  {
    if s != [] && IsSpace(s[0]) then 1 + SpaceRun(s[1..]) else 0
  }

  /** The length of the run of characters other than quotes that starts `s`: the class `[^"']`. */
  function TokenRun(s: string): (n: nat)
    ensures n <= |s|
    ensures forall j :: 0 <= j < n ==> !IsQuote(s[j])
    ensures n == |s| || IsQuote(s[n])
  {
    if s != [] && !IsQuote(s[0]) then 1 + TokenRun(s[1..]) else 0
  }

  /** A prefix of `u` followed by a prefix of the rest of `u` is a prefix of `u`. */
  lemma PrefixThen(u: string, i: nat, inner: string)
    requires i <= |u| && inner <= u[i..]
    ensures u[..i] + inner <= u
  {
    assert forall j :: 0 <= j < |inner| ==> inner[j] == u[i + j];
  }

  /** What `([^"']+)["']` consumed; `value` is the captured group. */
  datatype TokenText = TokenText(value: string, close: char)

  /** What `\s+content=["']([^"']+)["']` consumed. */
  datatype ContentAttr = ContentAttr(space: string, content: string, open: char, token: TokenText)

  /** What `name=["']csrf-token["']\s+content=["']([^"']+)["']` consumed. */
  datatype NameAttr = NameAttr(name: string, open: char, key: string, close: char, attr: ContentAttr)

  /** What one match of the whole pattern consumed, piece by piece. */
  datatype CsrfTag = CsrfTag(meta: string, space: string, attr: NameAttr)

  function TokenTextOf(v: TokenText): string {
    v.value + [v.close]
  }

  function ContentText(c: ContentAttr): string {
    c.space + c.content + [c.open] + TokenTextOf(c.token)
  }

  function NameText(n: NameAttr): string {
    n.name + [n.open] + n.key + [n.close] + ContentText(n.attr)
  }

  function TagText(m: CsrfTag): string {
    m.meta + (m.space + NameText(m.attr))
  }

  predicate AllSpace(s: string) {
    forall j :: 0 <= j < |s| ==> IsSpace(s[j])
  }

  predicate NoQuote(s: string) {
    forall j :: 0 <= j < |s| ==> !IsQuote(s[j])
  }

  predicate TokenOk(v: TokenText) {
    |v.value| > 0 && NoQuote(v.value) && IsQuote(v.close)
  }

  predicate ContentOk(c: ContentAttr) {
    |c.space| > 0 && AllSpace(c.space) && CiEq(c.content, "content=") && IsQuote(c.open) && TokenOk(c.token)
  }

  predicate NameOk(n: NameAttr) {
    CiEq(n.name, "name=") && IsQuote(n.open) && CiEq(n.key, "csrf-token") && IsQuote(n.close) && ContentOk(n.attr)
  }

  /** The pieces fit `<meta\s+name=["']csrf-token["']\s+content=["']([^"']+)["']`, case-insensitively. */
  predicate TagOk(m: CsrfTag) {
    CiEq(m.meta, "<meta") && |m.space| > 0 && AllSpace(m.space) && NameOk(m.attr)
  }

  /**
   * The first 17 characters of `u`, cut where `name=`, a quote, `csrf-token` and a quote sit.
   * A separate lemma so that MatchName's proof does not reason about slices itself.
   */
  lemma NameSlices(u: string)
    requires 17 <= |u|
    ensures u[..17] == u[..5] + [u[5]] + u[6..16] + [u[16]]
  {
  }

  /** A content attribute cut from the start of `u`, with a token that follows it, is a prefix of `u`. */
  lemma ContentPrefix(u: string, w: nat, v: TokenText)
    requires w + 9 <= |u| && TokenTextOf(v) <= u[w + 9..]
    ensures ContentText(ContentAttr(u[..w], u[w..w + 8], u[w + 8], v)) <= u
  {
    assert u[..w + 9] == u[..w] + u[w..w + 8] + [u[w + 8]];
    PrefixThen(u, w + 9, TokenTextOf(v));
  }

  /**
   * `([^"']+)["']` at the start of `u`. The group takes the longest run of
   * non-quotes: a shorter one would leave a non-quote where a quote must follow.
   */
  function MatchToken(u: string): (r: Option<TokenText>)
    ensures r.Some? ==> TokenOk(r.value) && TokenTextOf(r.value) <= u
  {
    var n := TokenRun(u);
    if n == 0 || n >= |u| then None
    else
      assert forall j :: 0 <= j < n ==> u[..n][j] == u[j];
      assert u[..n + 1] == u[..n] + [u[n]];
      Some(TokenText(u[..n], u[n]))
  }

  /**
   * `\s+content=["']` and the token at the start of `u`. The `\s+` takes the
   * longest run of whitespace: a shorter one would leave whitespace where `c` must follow.
   */
  function MatchContent(u: string): (r: Option<ContentAttr>)
    ensures r.Some? ==> ContentOk(r.value) && ContentText(r.value) <= u
  {
    var w := SpaceRun(u);
    if w == 0 || !(w + 9 <= |u| && CiEq(u[w..w + 8], "content=") && IsQuote(u[w + 8])) then None
    else match MatchToken(u[w + 9..])
      case None => None
      case Some(v) =>
        var c := ContentAttr(u[..w], u[w..w + 8], u[w + 8], v);
        SpaceRunIsSpace(u);
        ContentPrefix(u, w, v);
        Some(c)
  }

  /** `name=["']csrf-token["']` and the content attribute at the start of `u`. */
  function MatchName(u: string): (r: Option<NameAttr>)
    ensures r.Some? ==> NameOk(r.value) && NameText(r.value) <= u
  {
    if !(17 <= |u| && CiEq(u[..5], "name=") && IsQuote(u[5]) && CiEq(u[6..16], "csrf-token") && IsQuote(u[16])) then None
    else match MatchContent(u[17..])
      case None => None
      case Some(c) =>
        var n := NameAttr(u[..5], u[5], u[6..16], u[16], c);
        NameSlices(u);
        PrefixThen(u, 17, ContentText(c));
        Some(n)
  }

  /** The whitespace run at the start of `u` is whitespace. */
  lemma SpaceRunIsSpace(u: string)
    ensures AllSpace(u[..SpaceRun(u)])
  {
    var w := SpaceRun(u);
    assert forall j :: 0 <= j < w ==> u[..w][j] == u[j];
  }

  /** The match of the whole pattern that starts exactly at the start of `t`, if there is one. */
  function MatchHere(t: string): (r: Option<CsrfTag>)
    ensures r.Some? ==> TagOk(r.value) && TagText(r.value) <= t
  {
    if !(5 <= |t| && CiEq(t[..5], "<meta")) then None
    else
      var rest := t[5..];
      var w := SpaceRun(rest);
      if w == 0 then None
      else match MatchName(rest[w..])
        case None => None
        case Some(n) =>
          SpaceRunIsSpace(rest);
          PrefixThen(rest, w, NameText(n));
          PrefixThen(t, 5, rest[..w] + NameText(n));
          Some(CsrfTag(t[..5], rest[..w], n))
  }

  lemma {:induction false} SpaceRunOf(w: string, rest: string)
    requires AllSpace(w) && rest != [] && !IsSpace(rest[0])
    ensures SpaceRun(w + rest) == |w|
  {
    if w != [] {
      assert (w + rest)[1..] == w[1..] + rest;
      SpaceRunOf(w[1..], rest);
    } else {
      assert w + rest == rest;
    }
  }

  lemma {:induction false} TokenRunOf(v: string, rest: string)
    requires NoQuote(v) && rest != [] && IsQuote(rest[0])
    ensures TokenRun(v + rest) == |v|
  {
    if v != [] {
      assert (v + rest)[1..] == v[1..] + rest;
      TokenRunOf(v[1..], rest);
    } else {
      assert v + rest == rest;
    }
  }

  /** A token followed by its closing quote is matched whole. */
  lemma TokenFound(v: TokenText, tail: string)
    requires TokenOk(v)
    ensures MatchToken(TokenTextOf(v) + tail) == Some(v)
  {
    var u := TokenTextOf(v) + tail;
    assert u == v.value + ([v.close] + tail);
    TokenRunOf(v.value, [v.close] + tail);
    assert u[..|v.value|] == v.value;
  }

  /** The pieces of `a + b + [c] + d`, cut back out; kept apart so that ContentScan's proof stays small. */
  lemma Pieces(a: string, b: string, c: char, d: string)
    ensures var u := a + b + [c] + d;
      && u[..|a|] == a && u[|a|..|a| + |b|] == b && u[|a| + |b|] == c && u[|a| + |b| + 1..] == d
  {
    var u := a + b + [c] + d;
    assert u[|a|..|a| + |b|] == b;
    assert u[|a| + |b| + 1..] == d;
  }

  /** Text that reads `content=` in any case does not start with whitespace. */
  lemma ContentKeyNotSpace(key: string)
    requires CiEq(key, "content=")
    ensures key != [] && !IsSpace(key[0])
  {
    assert Upper(key[0]) == 'C';
  }

  /** Where the pieces of a content attribute sit in its text, and where its whitespace run ends. */
  lemma ContentScan(c: ContentAttr, tail: string)
    requires ContentOk(c)
    ensures var u := ContentText(c) + tail; var w := |c.space|;
      && SpaceRun(u) == w && w + 9 <= |u|
      && u[..w] == c.space && u[w..w + 8] == c.content && u[w + 8] == c.open
      && u[w + 9..] == TokenTextOf(c.token) + tail
  {
    var rest := TokenTextOf(c.token) + tail;
    var after := c.content + [c.open] + rest;
    var u := ContentText(c) + tail;
    assert u == c.space + c.content + [c.open] + rest;
    Pieces(c.space, c.content, c.open, rest);
    assert u == c.space + after;
    ContentKeyNotSpace(c.content);
    assert after[0] == c.content[0];
    SpaceRunOf(c.space, after);
  }

  /** A content attribute is matched whole, with its whitespace and its token. */
  lemma ContentFound(c: ContentAttr, tail: string)
    requires ContentOk(c)
    ensures MatchContent(ContentText(c) + tail) == Some(c)
  {
    ContentScan(c, tail);
    TokenFound(c.token, tail);
  }

  /** The name attribute is matched whole, with the content attribute after it. */
  lemma NameFound(n: NameAttr, tail: string)
    requires NameOk(n)
    ensures MatchName(NameText(n) + tail) == Some(n)
  {
    var u := NameText(n) + tail;
    assert u[..5] == n.name;
    assert u[5] == n.open;
    assert u[6..16] == n.key;
    assert u[16] == n.close;
    assert u[17..] == ContentText(n.attr) + tail;
    ContentFound(n.attr, tail);
  }

  /** A tag of the pattern's shape at the start of a text is the match found there, piece for piece. */
  lemma TagFound(m: CsrfTag, tail: string)
    requires TagOk(m)
    ensures MatchHere(TagText(m) + tail) == Some(m)
  {
    var t := TagText(m) + tail;
    var rest := t[5..];
    var after := NameText(m.attr) + tail;
    assert t[..5] == m.meta;
    assert rest == m.space + after;
    assert Upper(after[0]) == 'N';
    SpaceRunOf(m.space, after);
    assert rest[..|m.space|] == m.space;
    assert rest[|m.space|..] == after;
    NameFound(m.attr, tail);
  }

  /** The captured group of a match. */
  function TokenOf(m: CsrfTag): string {
    m.attr.attr.token.value
  }

  /** The pattern matches at position `q` of the page. */
  predicate MatchesAt(html: string, q: nat)
    requires q <= |html|
  {
    MatchHere(html[q..]).Some?
  }

  /** The leftmost position at or after `from` where the pattern matches, as `String.prototype.match` searches. */
  function FindTag(html: string, from: nat): (r: Option<nat>)
    requires from <= |html|
    ensures r.Some? ==> from <= r.value <= |html| && MatchesAt(html, r.value)
    ensures forall q :: from <= q <= |html| && (r.None? || q < r.value) ==> !MatchesAt(html, q)
    decreases |html| - from
  {
    if MatchesAt(html, from) then Some(from)
    else if from == |html| then None
    else FindTag(html, from + 1)
  }

  /** `html.match(...)[1]`: the token of the leftmost match, if any. */
  function CsrfTokenOf(html: string): Option<string> {
    match FindTag(html, 0)
    case None => None
    case Some(p) => Some(TokenOf(MatchHere(html[p..]).value))
  }

  /** A token found is the captured group of a tag of the pattern's shape inside the page. */
  lemma CsrfTokenSound(html: string)
    requires CsrfTokenOf(html).Some?
    ensures exists p, m :: 0 <= p <= |html| && TagOk(m) && TagText(m) <= html[p..] && TokenOf(m) == CsrfTokenOf(html).value
    ensures |CsrfTokenOf(html).value| > 0 && NoQuote(CsrfTokenOf(html).value)
  {
    var p := FindTag(html, 0).value;
    var m := MatchHere(html[p..]).value;
    assert TagOk(m) && TagText(m) <= html[p..];
  }

  /** The first tag in the page gives the token: a tag after text where no match starts is found. */
  lemma CsrfTokenFirst(html: string, pre: string, m: CsrfTag, tail: string)
    requires TagOk(m) && html == pre + TagText(m) + tail
    requires forall q :: 0 <= q < |pre| ==> !MatchesAt(html, q)
    ensures CsrfTokenOf(html) == Some(TokenOf(m))
  {
    assert html[|pre|..] == TagText(m) + tail;
    TagFound(m, tail);
    assert MatchesAt(html, |pre|);
    assert FindTag(html, 0) == Some(|pre|);
  }

  /** A page that holds a tag of the pattern's shape anywhere yields a token. */
  lemma CsrfTokenFound(html: string, pre: string, m: CsrfTag, tail: string)
    requires TagOk(m) && html == pre + TagText(m) + tail
    ensures CsrfTokenOf(html).Some?
  {
    assert html[|pre|..] == TagText(m) + tail;
    TagFound(m, tail);
    assert MatchesAt(html, |pre|);
  }

  /**
   * getCsrfToken: fetch the dashboard (None when the fetch or `text()`
   * threw) and read the token; a page without the tag stops the process.
   */
  function GetCsrfToken(dashboard: Option<string>): (r: Result<string>)
    ensures r == Err(RequestThrew) <==> dashboard.None?
    ensures dashboard.Some? ==> (r == Err(CsrfTagMissing) <==> CsrfTokenOf(dashboard.value).None?)
    ensures dashboard.Some? && CsrfTokenOf(dashboard.value).Some? ==> r == Ok(CsrfTokenOf(dashboard.value).value)
    ensures r.Err? ==> r.fault == RequestThrew || r.fault == CsrfTagMissing
    ensures r.Ok? ==> |r.value| > 0 && NoQuote(r.value)
  {
    match dashboard
    case None => Err(RequestThrew)
    case Some(html) =>
      match CsrfTokenOf(html)
      case None => Err(CsrfTagMissing)
      case Some(token) =>
        CsrfTokenSound(html);
        Ok(token)
  }

  // ---------------------------------------------------------------------
  // Kudos: kudoActivity
  // ---------------------------------------------------------------------

  const KudoUrlHead: string := "https://www.strava.com/feed/activity/"

  /** The kudo endpoint of an activity. */
  function KudoUrl(activityId: string): string {
    KudoUrlHead + activityId + "/kudo"
  }

  /** Different activities have different kudo endpoints, so each POST names its activity. */
  lemma KudoUrlDistinct(a: string, b: string)
    requires a != b
    ensures KudoUrl(a) != KudoUrl(b)
  {
    var n := |KudoUrlHead|;
    assert KudoUrl(a)[n..n + |a|] == a;
    assert KudoUrl(b)[n..n + |b|] == b;
  }

  /**
   * The POST kudoActivity sends: to `KudoUrl(activityId)`, with
   * its `Cookie` header and its `x-csrf-token` header.
   */
  datatype KudoPost = KudoPost(activityId: string, cookie: string, csrfToken: string)

  /** The `success` field of the parsed reply (None when absent), or the exception the POST or `json()` threw. */
  datatype KudoReply = KudoJson(success: Option<bool>) | KudoThrew

  /** What one call of kudoActivity does: post and return `success`, return without posting, or fail. */
  datatype KudoOutcome =
    | Kudoed(post: KudoPost, success: Option<bool>)
    | Skipped
    | KudoFailed(attempted: Option<KudoPost>, fault: Fault)

  /**
   * kudoActivity: use the token passed in when it is not empty, else fetch
   * one from the dashboard; then post the kudo. `reply` is what the POST
   * would get back.
   */
  function KudoActivity(
    activityId: string, csrfToken: string, cookies: string, dashboard: Option<string>, reply: KudoReply): (r: KudoOutcome)
    ensures r.Kudoed? ==> r.post.activityId == activityId && r.post.cookie == cookies && reply == KudoJson(r.success)
    ensures r.Kudoed? ==> r.post.csrfToken != ""
    ensures r.Kudoed? && csrfToken != "" ==> r.post.csrfToken == csrfToken
    ensures r.Kudoed? && csrfToken == "" ==> GetCsrfToken(dashboard) == Ok(r.post.csrfToken)
    ensures r != Skipped
    ensures r.KudoFailed? && r.attempted.Some? ==> reply == KudoThrew && r.attempted.value.activityId == activityId && r.fault == RequestThrew
    ensures r.KudoFailed? && r.attempted.Some? ==>
      && r.attempted.value.cookie == cookies
      && (csrfToken != "" ==> r.attempted.value.csrfToken == csrfToken)
      && (csrfToken == "" ==> GetCsrfToken(dashboard) == Ok(r.attempted.value.csrfToken))
    ensures r.KudoFailed? && r.attempted.None? ==> csrfToken == "" && GetCsrfToken(dashboard) == Err(r.fault)
  {
    var token := if csrfToken != "" then Ok(csrfToken) else GetCsrfToken(dashboard);
    match token
    case Err(f) => KudoFailed(None, f)
    case Ok(t) =>
      if t == "" then Skipped
      else
        var post := KudoPost(activityId, cookies, t);
        match reply
        case KudoThrew => KudoFailed(Some(post), RequestThrew)
        case KudoJson(success) => Kudoed(post, success)
  }

  /** The branch that returns without posting is never taken: a token fetched is never empty. */
  lemma KudoNeverSkips(activityId: string, csrfToken: string, cookies: string, dashboard: Option<string>, reply: KudoReply)
    ensures KudoActivity(activityId, csrfToken, cookies, dashboard, reply) != Skipped
  {
    if csrfToken == "" {
      var token := GetCsrfToken(dashboard);
      assert token.Ok? ==> token.value != "";
    }
  }

  /** Without a token passed in or on the dashboard, no kudo is posted; the process stops or the call throws. */
  lemma KudoWithoutTokenPostsNothing(activityId: string, cookies: string, dashboard: Option<string>, reply: KudoReply)
    requires dashboard.None? || CsrfTokenOf(dashboard.value).None?
    ensures var r := KudoActivity(activityId, "", cookies, dashboard, reply);
      r.KudoFailed? && r.attempted.None? && (r.fault == CsrfTagMissing <==> dashboard.Some?)
  {
  }


  // ---------------------------------------------------------------------
  // The feed bot: fetchStravaFeed
  // ---------------------------------------------------------------------

  /** The fields of a feed entry's activity the bot reads; `flagged` says whether `flagged` is neither null nor undefined. */
  datatype Activity = Activity(
    id: string, name: string, flagged: bool, athleteId: string, athleteName: string, canKudo: bool)

  datatype FeedEntry = FeedEntry(entity: string, activity: Activity)

  const ActivityEntity: string := "Activity"

  /** An entry the bot gives a kudo: an unflagged activity of someone else that may be kudoed. */
  predicate Eligible(e: FeedEntry, stravaId: Option<string>) {
    && e.entity == ActivityEntity
    && !e.activity.flagged
    && (stravaId.None? || e.activity.athleteId != stravaId.value)
    && e.activity.canKudo
  }

  /** The activities the bot kudos, in feed order. */
  function KudoPlan(entries: seq<FeedEntry>, stravaId: Option<string>): (plan: seq<string>)
    ensures |plan| <= |entries|
  {
    if entries == [] then []
    else
      var last := entries[|entries| - 1];
      KudoPlan(entries[..|entries| - 1], stravaId) + (if Eligible(last, stravaId) then [last.activity.id] else [])
  }

  /** The plan of a feed is the plans of its pieces, one after the other. */
  lemma {:induction false} KudoPlanAppend(a: seq<FeedEntry>, b: seq<FeedEntry>, stravaId: Option<string>)
    ensures KudoPlan(a + b, stravaId) == KudoPlan(a, stravaId) + KudoPlan(b, stravaId)
    decreases |b|
  {
    if b == [] {
      assert a + b == a;
    } else {
      var b' := b[..|b| - 1];
      assert (a + b)[..|a + b| - 1] == a + b';
      assert (a + b)[|a + b| - 1] == b[|b| - 1];
      KudoPlanAppend(a, b', stravaId);
    }
  }

  /** An activity is in the plan exactly when some entry of the feed is eligible and is that activity. */
  lemma {:induction false} KudoPlanMembers(entries: seq<FeedEntry>, stravaId: Option<string>, id: string)
    ensures id in KudoPlan(entries, stravaId) <==>
      exists i :: 0 <= i < |entries| && Eligible(entries[i], stravaId) && entries[i].activity.id == id
  {
    if entries != [] {
      var init := entries[..|entries| - 1];
      KudoPlanMembers(init, stravaId, id);
      assert forall i :: 0 <= i < |init| ==> init[i] == entries[i];
    }
  }

  /** Planning an initial part of the feed gives an initial part of the plan. */
  lemma KudoPlanPrefix(entries: seq<FeedEntry>, i: nat, stravaId: Option<string>)
    requires i <= |entries|
    ensures KudoPlan(entries[..i], stravaId) <= KudoPlan(entries, stravaId)
  {
    assert entries == entries[..i] + entries[i..];
    KudoPlanAppend(entries[..i], entries[i..], stravaId);
  }

  /** The kudo posts for the planned activities, in order. */
  function PostsFor(ids: seq<string>, cookies: string, token: string): (posts: seq<KudoPost>)
    ensures |posts| == |ids|
  {
    if ids == [] then []
    else PostsFor(ids[..|ids| - 1], cookies, token) + [KudoPost(ids[|ids| - 1], cookies, token)]
  }

  /** The `m`-th post is the kudo of the `m`-th planned activity. */
  lemma {:induction false} PostsForAt(ids: seq<string>, cookies: string, token: string, m: nat)
    requires m < |ids|
    ensures PostsFor(ids, cookies, token)[m] == KudoPost(ids[m], cookies, token)
  {
    if m < |ids| - 1 {
      PostsForAt(ids[..|ids| - 1], cookies, token, m);
    }
  }

  /** Posting for one more activity adds its post at the end. */
  lemma PostsForSnoc(ids: seq<string>, id: string, cookies: string, token: string)
    ensures PostsFor(ids + [id], cookies, token) == PostsFor(ids, cookies, token) + [KudoPost(id, cookies, token)]
  {
    assert (ids + [id])[..|ids|] == ids;
  }

  /** The posts for an initial part of the plan are an initial part of the posts. */
  lemma {:induction false} PostsForPrefix(a: seq<string>, b: seq<string>, cookies: string, token: string)
    requires a <= b
    ensures PostsFor(a, cookies, token) <= PostsFor(b, cookies, token)
    decreases |b|
  {
    if |a| < |b| {
      var b' := b[..|b| - 1];
      assert a <= b';
      PostsForPrefix(a, b', cookies, token);
    } else {
      assert a == b;
    }
  }

  /** The posts for an initial part of the feed are an initial part of the posts for the whole feed. */
  lemma PostsForFeedPrefix(entries: seq<FeedEntry>, i: nat, stravaId: Option<string>, cookies: string, token: string)
    requires i <= |entries|
    ensures PostsFor(KudoPlan(entries[..i], stravaId), cookies, token) <= PostsFor(KudoPlan(entries, stravaId), cookies, token)
  {
    KudoPlanPrefix(entries, i, stravaId);
    PostsForPrefix(KudoPlan(entries[..i], stravaId), KudoPlan(entries, stravaId), cookies, token);
  }

  /** Planning one more entry of the feed adds its activity when it is eligible. */
  lemma KudoPlanStep(entries: seq<FeedEntry>, i: nat, stravaId: Option<string>)
    requires i < |entries|
    ensures KudoPlan(entries[..i + 1], stravaId)
      == KudoPlan(entries[..i], stravaId) + (if Eligible(entries[i], stravaId) then [entries[i].activity.id] else [])
  {
    assert entries[..i + 1][..i] == entries[..i];
  }

  /** The pause after a kudo, `Math.floor(r * 5000) + 5000` milliseconds for `r = Math.random()`. */
  function Delay(r: real): (ms: int)
    requires 0.0 <= r < 1.0
    ensures 5000 <= ms <= 9999
  {
    (r * 5000.0).Floor + 5000
  }

  /** Every pause from 5000 to 9999 milliseconds is the pause for some ratio. */
  lemma DelayCovers(ms: int)
    requires 5000 <= ms <= 9999
    ensures Delay((ms - 5000) as real / 5000.0) == ms
  {
  }

  /** The feed URL for the session's athlete (`undefined` when there is none) at time `now` in milliseconds. */
  function FeedUrl(stravaId: Option<string>, now: int): string {
    "https://www.strava.com/dashboard/feed?feed_type=following&athlete_id="
      + (match stravaId case Some(id) => id case None => "undefined")
      + "&cursor=" + IntToDecimal(now)
  }

  datatype FeedRequest = FeedRequest(url: string, cookie: string)

  /** The feed reply's status and parsed entries, or the exception the fetch or `json()` threw. */
  datatype FeedReply = FeedReply(status: int, statusText: string, entries: seq<FeedEntry>) | FeedThrew

  /** How a cycle ends: it ran through the feed, the feed was refused, an exception was caught, or the process stopped. */
  datatype CycleEnd = Finished | FeedRejected(status: int, statusText: string) | Caught | Exited(fault: Fault)

  /** What one cycle did: the feed request, the kudo POSTs, their `success` values and the pauses after them. */
  datatype CycleOutcome = CycleOutcome(
    feedRequest: Option<FeedRequest>, posts: seq<KudoPost>, successes: seq<Option<bool>>, waits: seq<int>, end: CycleEnd)

  /** The activities a cycle plans to kudo, given the feed reply. */
  function PlanOf(reply: FeedReply, stravaId: Option<string>): seq<string> {
    if reply.FeedReply? && 200 <= reply.status <= 299 then KudoPlan(reply.entries, stravaId) else []
  }

  /** With a token passed in, kudoActivity posts with that token, and fails only when the POST throws. */
  lemma KudoWithToken(activityId: string, csrfToken: string, cookies: string, dashboard: Option<string>, reply: KudoReply)
    requires csrfToken != ""
    ensures var post := KudoPost(activityId, cookies, csrfToken);
      KudoActivity(activityId, csrfToken, cookies, dashboard, reply)
        == match reply
           case KudoJson(success) => Kudoed(post, success)
           case KudoThrew => KudoFailed(Some(post), RequestThrew)
  {
  }

  /** Visiting one more entry of the feed adds its kudo POST to the planned posts exactly when it is eligible. */
  lemma PostsStep(entries: seq<FeedEntry>, i: nat, stravaId: Option<string>, cookies: string, token: string)
    requires i < |entries|
    ensures PostsFor(KudoPlan(entries[..i + 1], stravaId), cookies, token)
      == PostsFor(KudoPlan(entries[..i], stravaId), cookies, token)
        + (if Eligible(entries[i], stravaId) then [KudoPost(entries[i].activity.id, cookies, token)] else [])
  {
    var plan := KudoPlan(entries[..i], stravaId);
    KudoPlanStep(entries, i, stravaId);
    if Eligible(entries[i], stravaId) {
      PostsForSnoc(plan, entries[i].activity.id, cookies, token);
    } else {
      assert KudoPlan(entries[..i + 1], stravaId) == plan;
    }
  }

  /**
   * The answers and pauses of a cycle's first `|waits|` kudos: the `m`-th
   * POST was answered with `successes[m]` and the `m`-th pause lasted
   * `Delay(random(m))` milliseconds.
   */
  predicate Replayed(successes: seq<Option<bool>>, waits: seq<int>, kudo: nat -> KudoReply, random: nat -> real)
    decreases |waits|
  {
    && |successes| == |waits|
    && (waits != [] ==>
         var m := |waits| - 1;
         && Replayed(successes[..m], waits[..m], kudo, random)
         && kudo(m) == KudoJson(successes[m]) && 0.0 <= random(m) < 1.0 && waits[m] == Delay(random(m)))
  }

  /** The `m`-th recorded answer and pause are the oracles' `m`-th. */
  lemma {:induction false} ReplayedAt(successes: seq<Option<bool>>, waits: seq<int>, kudo: nat -> KudoReply, random: nat -> real, m: nat)
    requires Replayed(successes, waits, kudo, random) && m < |waits|
    ensures kudo(m) == KudoJson(successes[m]) && 0.0 <= random(m) < 1.0 && waits[m] == Delay(random(m))
    decreases |waits|
  {
    var n := |waits| - 1;
    if m < n {
      ReplayedAt(successes[..n], waits[..n], kudo, random, m);
    }
  }

  /**
   * The body of the feed loop for an eligible activity: a kudo POST with the
   * cycle's token and, when the POST answers, a pause. `posts`, `successes`
   * and `waits` are what the cycle has done so far, so the POST is number
   * `|posts|` and the pause number `|waits|`.
   */
  method KudoAndPause(
    activityId: string, cookies: string, token: string, dashboard: Option<string>,
    kudo: nat -> KudoReply, random: nat -> real,
    posts: seq<KudoPost>, successes: seq<Option<bool>>, waits: seq<int>)
    returns (posts': seq<KudoPost>, successes': seq<Option<bool>>, waits': seq<int>, caught: bool)
    requires token != ""
    requires 0.0 <= random(|waits|) < 1.0
    requires |posts| == |waits| && Replayed(successes, waits, kudo, random)
    ensures posts' == posts + [KudoPost(activityId, cookies, token)]
    ensures caught <==> kudo(|posts|).KudoThrew?
    ensures caught ==> successes' == successes && waits' == waits
    ensures !caught ==> |waits'| == |posts'| && Replayed(successes', waits', kudo, random)
  {
    var reply := kudo(|posts|);
    var outcome := KudoActivity(activityId, token, cookies, dashboard, reply);
    KudoWithToken(activityId, token, cookies, dashboard, reply);
    successes', waits', caught := successes, waits, false;
    match outcome
    case Kudoed(post, success) =>
      posts' := posts + [post];
      successes' := successes + [success];
      waits' := waits + [Delay(random(|waits|))];
      assert successes'[..|waits|] == successes && waits'[..|waits|] == waits;
    case KudoFailed(attempted, _) =>
      posts' := posts + [attempted.value];
      caught := true;
  }

  /**
   * One pass of the feed loop, for entry `i`: a kudo and a pause when the
   * entry is eligible, nothing otherwise. `posts` are the POSTs planned for
   * the entries before `i`.
   */
  method VisitEntry(
    entries: seq<FeedEntry>, i: nat, stravaId: Option<string>, cookies: string, token: string, dashboard: Option<string>,
    kudo: nat -> KudoReply, random: nat -> real,
    posts: seq<KudoPost>, successes: seq<Option<bool>>, waits: seq<int>)
    returns (posts': seq<KudoPost>, successes': seq<Option<bool>>, waits': seq<int>, caught: bool)
    requires i < |entries| && token != ""
    requires forall n :: 0.0 <= random(n) < 1.0
    requires posts == PostsFor(KudoPlan(entries[..i], stravaId), cookies, token)
    requires |waits| == |posts| && Replayed(successes, waits, kudo, random)
    ensures posts' <= PostsFor(KudoPlan(entries, stravaId), cookies, token)
    ensures !caught ==> posts' == PostsFor(KudoPlan(entries[..i + 1], stravaId), cookies, token)
    ensures !caught ==> |waits'| == |posts'|
    ensures caught ==> |posts'| == |waits'| + 1 && kudo(|waits'|) == KudoThrew
    ensures Replayed(successes', waits', kudo, random)
  {
    PostsStep(entries, i, stravaId, cookies, token);
    PostsForFeedPrefix(entries, i + 1, stravaId, cookies, token);
    posts', successes', waits', caught := posts, successes, waits, false;
    if Eligible(entries[i], stravaId) {
      posts', successes', waits', caught :=
        KudoAndPause(entries[i].activity.id, cookies, token, dashboard, kudo, random, posts, successes, waits);
    }
  }

  /**
   * The loop of fetchStravaFeed: kudo each eligible entry in feed order with
   * the cycle's token, pausing after each kudo, until the feed ends or a
   * POST throws. The `m`-th POST gets `kudo(m)` back and the `m`-th pause
   * draws `random(m)`.
   */
  method KudoEntries(
    entries: seq<FeedEntry>, stravaId: Option<string>, cookies: string, token: string, dashboard: Option<string>,
    kudo: nat -> KudoReply, random: nat -> real)
    returns (posts: seq<KudoPost>, successes: seq<Option<bool>>, waits: seq<int>, caught: bool)
    requires token != ""
    requires forall n :: 0.0 <= random(n) < 1.0
    ensures posts <= PostsFor(KudoPlan(entries, stravaId), cookies, token)
    ensures !caught ==> posts == PostsFor(KudoPlan(entries, stravaId), cookies, token) && |posts| == |waits|
    ensures caught ==> |posts| == |waits| + 1 && kudo(|waits|) == KudoThrew
    ensures Replayed(successes, waits, kudo, random)
  {
    posts, successes, waits, caught := [], [], [], false;
    var i := 0;
    while i < |entries|
      invariant 0 <= i <= |entries|
      invariant posts == PostsFor(KudoPlan(entries[..i], stravaId), cookies, token)
      invariant |waits| == |posts| && Replayed(successes, waits, kudo, random)
    {
      posts, successes, waits, caught :=
        VisitEntry(entries, i, stravaId, cookies, token, dashboard, kudo, random, posts, successes, waits);
      if caught {
        return;
      }
      i := i + 1;
    }
    assert entries[..i] == entries;
  }

  /**
   * What a cycle that holds a CSRF token does: it requests the feed for the
   * session's athlete, then posts a kudo for each planned activity in order
   * and pauses after each, until the plan runs out or a POST throws. A
   * refused or failed feed ends the cycle before any kudo.
   */
  predicate CycleDid(
    out: CycleOutcome, cookies: string, token: string, stravaId: Option<string>, now: int,
    feed: FeedRequest -> FeedReply, kudo: nat -> KudoReply, random: nat -> real)
  {
    var request := FeedRequest(FeedUrl(stravaId, now), cookies);
    var reply := feed(request);
    var plan := PlanOf(reply, stravaId);
    && out.feedRequest == Some(request)
    && (reply.FeedThrew? ==> out.end == Caught)
    && (reply.FeedReply? && !(200 <= reply.status <= 299) ==> out.end == FeedRejected(reply.status, reply.statusText))
    && out.posts <= PostsFor(plan, cookies, token)
    && (out.end == Finished || out.end == Caught || out.end.FeedRejected?)
    && (out.end == Finished ==> out.posts == PostsFor(plan, cookies, token) && |out.posts| == |out.waits|)
    && (reply.FeedReply? && 200 <= reply.status <= 299 ==> (out.end == Finished <==> |out.posts| == |out.waits|))
    && |out.waits| <= |out.posts| <= |out.waits| + 1
    && Replayed(out.successes, out.waits, kudo, random)
    && (|out.posts| > |out.waits| ==> out.end == Caught && kudo(|out.waits|) == KudoThrew)
  }

  /** fetchStravaFeed once it holds its token: fetch the feed and kudo the eligible entries. */
  method FeedCycle(
    cookies: string, token: string, stravaId: Option<string>, dashboard: Option<string>, now: int,
    feed: FeedRequest -> FeedReply, kudo: nat -> KudoReply, random: nat -> real)
    returns (out: CycleOutcome)
    requires token != ""
    requires forall n :: 0.0 <= random(n) < 1.0
    ensures CycleDid(out, cookies, token, stravaId, now, feed, kudo, random)
  {
    var request := FeedRequest(FeedUrl(stravaId, now), cookies);
    var reply := feed(request);
    if reply.FeedThrew? {
      return CycleOutcome(Some(request), [], [], [], Caught);
    }
    if !(200 <= reply.status <= 299) {
      return CycleOutcome(Some(request), [], [], [], FeedRejected(reply.status, reply.statusText));
    }
    var posts, successes, waits, caught := KudoEntries(reply.entries, stravaId, cookies, token, dashboard, kudo, random);
    return CycleOutcome(Some(request), posts, successes, waits, if caught then Caught else Finished);
  }

  /**
   * fetchStravaFeed, one cycle: read the CSRF token, then run the cycle for
   * the session's athlete. A page without the tag stops the process; a
   * dashboard fetch that throws ends the cycle before the feed is requested.
   */
  method RunFeedCycle(
    cookies: string, dashboard: Option<string>, now: int,
    feed: FeedRequest -> FeedReply, kudo: nat -> KudoReply, random: nat -> real)
    returns (out: CycleOutcome)
    requires forall n :: 0.0 <= random(n) < 1.0
    ensures GetCsrfToken(dashboard).Err? ==>
      out == CycleOutcome(None, [], [], [], if GetCsrfToken(dashboard).fault == CsrfTagMissing then Exited(CsrfTagMissing) else Caught)
    ensures GetCsrfToken(dashboard).Ok? ==>
      CycleDid(out, cookies, GetCsrfToken(dashboard).value, ExtractStravaId(cookies), now, feed, kudo, random)
  {
    var token := GetCsrfToken(dashboard);
    if token.Err? {
      return CycleOutcome(None, [], [], [], if token.fault == CsrfTagMissing then Exited(CsrfTagMissing) else Caught);
    }
    out := FeedCycle(cookies, token.value, ExtractStravaId(cookies), dashboard, now, feed, kudo, random);
  }

  /** Every kudo a cycle posts is for an eligible entry of the feed, with the cycle's cookies and token. */
  lemma CyclePostsOnlyEligible(
    out: CycleOutcome, cookies: string, token: string, stravaId: Option<string>, now: int,
    feed: FeedRequest -> FeedReply, kudo: nat -> KudoReply, random: nat -> real, m: nat)
    requires CycleDid(out, cookies, token, stravaId, now, feed, kudo, random)
    requires m < |out.posts|
    ensures var reply := feed(FeedRequest(FeedUrl(stravaId, now), cookies));
      && reply.FeedReply?
      && exists i :: 0 <= i < |reply.entries| && Eligible(reply.entries[i], stravaId)
           && out.posts[m] == KudoPost(reply.entries[i].activity.id, cookies, token)
  {
    var reply := feed(FeedRequest(FeedUrl(stravaId, now), cookies));
    var plan := PlanOf(reply, stravaId);
    assert out.posts[m] == PostsFor(plan, cookies, token)[m];
    PostsForAt(plan, cookies, token, m);
    assert plan != [];
    assert plan[m] in KudoPlan(reply.entries, stravaId);
    KudoPlanMembers(reply.entries, stravaId, plan[m]);
  }

  /** Each pause of a cycle lasts from 5000 to 9999 milliseconds. */
  lemma CyclePausesBounded(
    out: CycleOutcome, cookies: string, token: string, stravaId: Option<string>, now: int,
    feed: FeedRequest -> FeedReply, kudo: nat -> KudoReply, random: nat -> real, m: nat)
    requires CycleDid(out, cookies, token, stravaId, now, feed, kudo, random)
    requires m < |out.waits|
    ensures 5000 <= out.waits[m] <= 9999
  {
    ReplayedAt(out.successes, out.waits, kudo, random, m);
  }

  // ---------------------------------------------------------------------
  // The API-key gate and the start-up configuration
  // ---------------------------------------------------------------------

  /** The reply of the API-key middleware: None lets the request through, Some is the 401 answer. */
  function ApiKeyGate(queryKey: Option<string>, configured: Option<string>): (r: Option<HttpResponse>)
    ensures r.None? <==> queryKey.Some? && queryKey.value != "" && configured == queryKey
    ensures r.Some? ==> r.value.status == 401
  {
    if !Given(queryKey) || configured != queryKey then
      Some(HttpResponse(401, [], Text("{\"error\":\"Unauthorized: Invalid or missing API key\"}")))
    else None
  }

  /** Only the configured key opens the gate, and no key at all does when none is configured. */
  lemma ApiKeyGateOnlyConfigured(queryKey: Option<string>, configured: Option<string>)
    requires ApiKeyGate(queryKey, configured).None?
    ensures configured.Some? && configured.value != "" && queryKey == configured
  {
  }

  /**
   * The global `Env`. None in `tileCacheSecs` or `kudoSecs` stands for NaN
   * or undefined, the values `parseInt` and a missing field give.
   */
  class Env {
    var stravaCookies: Option<string>
    var tileCacheSecs: Option<int>
    var apiKey: Option<string>
    var kudoSecs: Option<int>

    constructor()
      ensures stravaCookies == None && tileCacheSecs == Some(0) && apiKey == None && kudoSecs == None
    {
      stravaCookies := None;
      tileCacheSecs := Some(0);
      apiKey := None;
      kudoSecs := None;
    }

    /**
     * initializeEnv. `parsedTileCacheSecs` and `parsedKudoSecs` are what
     * `parseInt` makes of the two variables: None (NaN) when a variable is
     * missing, so the defaults written just before are always overwritten.
     * The result is the composite cookie string, or why the process stops.
     */
    method Initialize(
      apiKeyVar: Option<string>, parsedTileCacheSecs: Option<int>, parsedKudoSecs: Option<int>,
      cookiesVar: Option<string>, probe: ProbeReply)
      returns (r: Result<string>)
      modifies this
      ensures r == Err(MissingApiKey) <==> !Given(apiKeyVar)
      ensures !Given(apiKeyVar) ==> unchanged(this)
      ensures Given(apiKeyVar) ==>
        apiKey == apiKeyVar && tileCacheSecs == parsedTileCacheSecs && kudoSecs == parsedKudoSecs
      ensures r == Err(MissingCookies) <==> Given(apiKeyVar) && !Given(cookiesVar)
      ensures Given(apiKeyVar) && Given(cookiesVar) && probe.ProbeReply? && probe.status == 200 ==>
        r == Ok(CompositeCookies(probe.headers, cookiesVar.value)) && stravaCookies == Some(r.value)
      ensures r.Ok? ==>
        && Given(apiKeyVar) && Given(cookiesVar) && probe.ProbeReply? && probe.status == 200
        && r.value == CompositeCookies(probe.headers, cookiesVar.value) && stravaCookies == Some(r.value)
      ensures r.Err? ==> stravaCookies == old(stravaCookies)
      ensures Given(apiKeyVar) && Given(cookiesVar) ==>
        (r == Err(RequestThrew) <==> probe.ProbeThrew?)
        && (r == Err(AuthenticationFailed) <==> probe.ProbeReply? && probe.status != 200)
    {
      if !Given(apiKeyVar) {
        return Err(MissingApiKey);
      }
      apiKey := apiKeyVar;
      tileCacheSecs := Some(0);
      tileCacheSecs := parsedTileCacheSecs;
      kudoSecs := Some(3600);
      kudoSecs := parsedKudoSecs;
      if !Given(cookiesVar) {
        return Err(MissingCookies);
      }
      r := GetFullCookies(cookiesVar.value, probe);
      if r.Ok? {
        stravaCookies := Some(r.value);
      }
    }
  }
}
