/** The mini-app page's pure helpers: HTML escaping of text put into markup, the text shown
    for a stage's value, whether the add-stage button is offered, and the headers every API
    request carries. JavaScript's `null`/`undefined` (and `NaN`) are `None`. */
module WebappClient {
  import opened Common
  import MiniappStore
  import AppApi
  import InitDataAuth

  // ---------------------------------------------------------------------------------------
  // escapeHtml

  /** `s.replaceAll(c, rep)` for a one-character pattern. */
  function ReplaceChar(s: string, c: char, rep: string): string {
    if s == [] then [] else (if s[0] == c then rep else [s[0]]) + ReplaceChar(s[1..], c, rep)
  }

  /** `s.replaceAll(pat, rep)`: matches are found left to right and do not overlap. */
  function ReplaceAll(s: string, pat: string, rep: string): string
    requires pat != []
    decreases |s|
  {
    if |s| < |pat| then s
    else if s[..|pat|] == pat then rep + ReplaceAll(s[|pat|..], pat, rep)
    else [s[0]] + ReplaceAll(s[1..], pat, rep)
  }

  /** `escapeHtml(s)`: `&` first, then `<`, then `>`. */
  function EscapeHtml(s: Option<string>): string {
    Passes(if s.Some? then s.value else "")
  }

  /** What the entities are read back by: `&lt;`, then `&gt;`, then `&amp;`. */
  function UnescapeHtml(s: string): string {
    ReplaceAll(ReplaceAll(ReplaceAll(s, "&lt;", "<"), "&gt;", ">"), "&amp;", "&")
  }

  predicate Special(c: char) {
    c == '&' || c == '<' || c == '>'
  }

  /** What one character becomes. */
  function EscapedChar(c: char): string {
    if c == '&' then "&amp;" else if c == '<' then "&lt;" else if c == '>' then "&gt;" else [c]
  }

  function Escaped(s: string): string {
    if s == [] then [] else EscapedChar(s[0]) + Escaped(s[1..])
  }

  lemma {:induction false} ReplaceCharAppend(a: string, b: string, c: char, rep: string)
    ensures ReplaceChar(a + b, c, rep) == ReplaceChar(a, c, rep) + ReplaceChar(b, c, rep)
    decreases |a|
  {
    if a == [] {
      assert a + b == b;
    } else {
      assert (a + b)[0] == a[0] && (a + b)[1..] == a[1..] + b;
      ReplaceCharAppend(a[1..], b, c, rep);
    }
  }

  /** The three `replaceAll` passes of `escapeHtml`. */
  function Passes(t: string): string {
    ReplaceChar(ReplaceChar(ReplaceChar(t, '&', "&amp;"), '<', "&lt;"), '>', "&gt;")
  }

  lemma PassesAppend(a: string, b: string)
    ensures Passes(a + b) == Passes(a) + Passes(b)
  {
    ReplaceCharAppend(a, b, '&', "&amp;");
    var a1 := ReplaceChar(a, '&', "&amp;");
    var b1 := ReplaceChar(b, '&', "&amp;");
    ReplaceCharAppend(a1, b1, '<', "&lt;");
    ReplaceCharAppend(ReplaceChar(a1, '<', "&lt;"), ReplaceChar(b1, '<', "&lt;"), '>', "&gt;");
  }

  lemma {:induction false} ReplaceCharAbsent(s: string, c: char, rep: string)
    requires forall i :: 0 <= i < |s| ==> s[i] != c
    ensures ReplaceChar(s, c, rep) == s
    decreases |s|
  {
    if s != [] {
      ReplaceCharAbsent(s[1..], c, rep);
      assert s == [s[0]] + s[1..];
    }
  }

  lemma ReplaceCharSingle(x: char, c: char, rep: string)
    ensures ReplaceChar([x], c, rep) == if x == c then rep else [x]
  {
    var s := [x];
    assert s[0] == x && s[1..] == [];
    assert ReplaceChar(s[1..], c, rep) == [];
    assert (if x == c then rep else [x]) + [] == (if x == c then rep else [x]);
  }

  lemma PassesOne(c: char)
    ensures Passes([c]) == EscapedChar(c)
  {
    ReplaceCharSingle(c, '&', "&amp;");
    if c == '&' {
      ReplaceCharAbsent("&amp;", '<', "&lt;");
      ReplaceCharAbsent("&amp;", '>', "&gt;");
    } else {
      ReplaceCharSingle(c, '<', "&lt;");
      if c == '<' {
        ReplaceCharAbsent("&lt;", '>', "&gt;");
      } else {
        ReplaceCharSingle(c, '>', "&gt;");
      }
    }
  }

  /** The three passes escape each character on its own. */
  lemma {:induction false} EscapeIsPerCharacter(s: string)
    ensures EscapeHtml(Some(s)) == Escaped(s)
    decreases |s|
  {
    if s != [] {
      EscapeIsPerCharacter(s[1..]);
      assert s == [s[0]] + s[1..];
      PassesAppend([s[0]], s[1..]);
      PassesOne(s[0]);
    }
  }

  /** Escaped text contains no angle bracket. */
  lemma {:induction false} EscapedHasNoBrackets(s: string)
    ensures forall i :: 0 <= i < |Escaped(s)| ==> Escaped(s)[i] != '<' && Escaped(s)[i] != '>'
    decreases |s|
  {
    if s != [] {
      EscapedHasNoBrackets(s[1..]);
      var e := EscapedChar(s[0]);
      var rest := Escaped(s[1..]);
      forall i | 0 <= i < |e + rest| ensures (e + rest)[i] != '<' && (e + rest)[i] != '>' {
        if i >= |e| {
          assert (e + rest)[i] == rest[i - |e|];
        }
      }
    }
  }

  lemma {:induction false} EscapedPlain(s: string)
    requires forall i :: 0 <= i < |s| ==> !Special(s[i])
    ensures Escaped(s) == s
    decreases |s|
  {
    if s != [] {
      EscapedPlain(s[1..]);
      assert s == [s[0]] + s[1..];
    }
  }

  /** `escapeHtml` output contains no `<` or `>`; text without `&`, `<` and `>` is returned as
      it is; `null` and the empty string give the empty string. */
  lemma EscapeHtmlProperties(s: Option<string>)
    ensures forall i :: 0 <= i < |EscapeHtml(s)| ==> EscapeHtml(s)[i] != '<' && EscapeHtml(s)[i] != '>'
    ensures s.Some? && (forall i :: 0 <= i < |s.value| ==> !Special(s.value[i])) ==> EscapeHtml(s) == s.value
    ensures s.None? || s == Some("") ==> EscapeHtml(s) == ""
  {
    var t := if s.Some? then s.value else "";
    assert EscapeHtml(s) == EscapeHtml(Some(t));
    EscapeIsPerCharacter(t);
    EscapedHasNoBrackets(t);
    if forall i :: 0 <= i < |t| ==> !Special(t[i]) {
      EscapedPlain(t);
    }
  }

  // Reading back, pass by pass

  lemma RAMatch(pat: string, rep: string, rest: string)
    requires pat != []
    ensures ReplaceAll(pat + rest, pat, rep) == rep + ReplaceAll(rest, pat, rep)
  {
    assert (pat + rest)[..|pat|] == pat;
    assert (pat + rest)[|pat|..] == rest;
  }

  /** One character that does not start a match is copied. */
  lemma RAStep(c: char, pat: string, rep: string, rest: string)
    requires pat != []
    requires |rest| + 1 >= |pat| ==> ([c] + rest)[..|pat|] != pat
    ensures ReplaceAll([c] + rest, pat, rep) == [c] + ReplaceAll(rest, pat, rep)
  {
    var s := [c] + rest;
    assert s[0] == c && s[1..] == rest;
    if |s| < |pat| {
      RAShort(rest, pat, rep);
    }
  }

  /** A piece holding no first character of the pattern is copied through. */
  lemma {:induction false} RANoStart(tok: string, pat: string, rep: string, rest: string)
    requires pat != []
    requires forall i :: 0 <= i < |tok| ==> tok[i] != pat[0]
    ensures ReplaceAll(tok + rest, pat, rep) == tok + ReplaceAll(rest, pat, rep)
    decreases |tok|
  {
    if tok == [] {
      assert tok + rest == rest;
    } else {
      var tail := tok[1..] + rest;
      RANoStart(tok[1..], pat, rep, rest);
      assert tok + rest == [tok[0]] + tail;
      if |tail| + 1 >= |pat| {
        assert ([tok[0]] + tail)[..|pat|][0] == tok[0];
      }
      RAStep(tok[0], pat, rep, tail);
      assert tok == [tok[0]] + tok[1..];
    }
  }

  /** A piece that starts like the pattern, differs from it at its second character and
      holds no other first character of the pattern is copied through. */
  lemma RAPass(tok: string, pat: string, rep: string, rest: string)
    requires |pat| >= 2 && |tok| >= 2
    requires tok[0] == pat[0] && tok[1] != pat[1]
    requires forall i :: 0 < i < |tok| ==> tok[i] != pat[0]
    ensures ReplaceAll(tok + rest, pat, rep) == tok + ReplaceAll(rest, pat, rep)
  {
    var tail := tok[1..] + rest;
    RANoStart(tok[1..], pat, rep, rest);
    assert tok + rest == [tok[0]] + tail;
    if |tail| + 1 >= |pat| {
      assert ([tok[0]] + tail)[..|pat|][1] == tok[1];
    }
    RAStep(tok[0], pat, rep, tail);
    assert tok == [tok[0]] + tok[1..];
  }

  lemma RAShort(s: string, pat: string, rep: string)
    requires pat != [] && |s| < |pat|
    ensures ReplaceAll(s, pat, rep) == s
  {
  }

  function AfterLt(c: char): string {
    if c == '&' then "&amp;" else if c == '>' then "&gt;" else [c]
  }

  function StageLt(s: string): string {
    if s == [] then [] else AfterLt(s[0]) + StageLt(s[1..])
  }

  function AfterGt(c: char): string {
    if c == '&' then "&amp;" else [c]
  }

  function StageGt(s: string): string {
    if s == [] then [] else AfterGt(s[0]) + StageGt(s[1..])
  }

  lemma {:induction false} ReadBackLt(s: string)
    ensures ReplaceAll(Escaped(s), "&lt;", "<") == StageLt(s)
    decreases |s|
  {
    if s == [] {
      RAShort("", "&lt;", "<");
    } else {
      var c := s[0];
      ReadBackLt(s[1..]);
      var rest := Escaped(s[1..]);
      if c == '<' {
        RAMatch("&lt;", "<", rest);
      } else if c == '&' {
        RAPass("&amp;", "&lt;", "<", rest);
      } else if c == '>' {
        RAPass("&gt;", "&lt;", "<", rest);
      } else {
        RANoStart([c], "&lt;", "<", rest);
      }
    }
  }

  lemma {:induction false} ReadBackGt(s: string)
    ensures ReplaceAll(StageLt(s), "&gt;", ">") == StageGt(s)
    decreases |s|
  {
    if s == [] {
      RAShort("", "&gt;", ">");
    } else {
      var c := s[0];
      ReadBackGt(s[1..]);
      var rest := StageLt(s[1..]);
      if c == '>' {
        RAMatch("&gt;", ">", rest);
      } else if c == '&' {
        RAPass("&amp;", "&gt;", ">", rest);
      } else {
        RANoStart([c], "&gt;", ">", rest);
      }
    }
  }

  lemma {:induction false} ReadBackAmp(s: string)
    ensures ReplaceAll(StageGt(s), "&amp;", "&") == s
    decreases |s|
  {
    if s == [] {
      RAShort("", "&amp;", "&");
    } else {
      var c := s[0];
      ReadBackAmp(s[1..]);
      var rest := StageGt(s[1..]);
      if c == '&' {
        RAMatch("&amp;", "&", rest);
      } else {
        RANoStart([c], "&amp;", "&", rest);
      }
      assert s == [c] + s[1..];
    }
  }

  /** Because `&` is escaped first, reading `&lt;`, `&gt;` and then `&amp;` back gives the
      original text. */
  lemma UnescapeEscape(s: string)
    ensures UnescapeHtml(EscapeHtml(Some(s))) == s
  {
    EscapeIsPerCharacter(s);
    ReadBackLt(s);
    ReadBackGt(s);
    ReadBackAmp(s);
  }

  // ---------------------------------------------------------------------------------------
  // The stage value and the add-stage button

  const Dash := "—"
  const Rub := " руб."
  const Hrs := " ч."

  /** The wire name of a display mode. */
  function ModeName(m: MiniappStore.DisplayMode): string {
    match m
    case Hours => "hours"
    case Sums => "sums"
  }

  /** `${x ?? "—"}` for an integer or null. */
  function OrDash(x: Option<int>): string {
    if x.Some? then DecimalString(x.value) else Dash
  }

  /** The value shown for a stage: the amount in roubles in "sums" mode, the hours otherwise. */
  function StageValue(mode: string, amount: Option<int>, hours: Option<int>): string {
    if mode == "sums" then OrDash(amount) + Rub else OrDash(hours) + Hrs
  }

  predicate Plain(s: string) {
    forall i :: 0 <= i < |s| ==> !Special(s[i])
  }

  lemma PlainAppend(a: string, b: string)
    requires Plain(a) && Plain(b)
    ensures Plain(a + b)
  {
    forall i | 0 <= i < |a + b| ensures !Special((a + b)[i]) {
      if i < |a| {
        assert (a + b)[i] == a[i];
      } else {
        assert (a + b)[i] == b[i - |a|];
      }
    }
  }

  lemma {:induction false} NatStringPlain(n: nat)
    ensures Plain(NatString(n))
    decreases n
  {
    if n >= 10 {
      NatStringPlain(n / 10);
      PlainAppend(NatString(n / 10), [DigitChar(n % 10)]);
    }
  }

  lemma OrDashPlain(x: Option<int>)
    ensures Plain(OrDash(x))
  {
    if x.Some? {
      var n := x.value;
      if n < 0 {
        NatStringPlain(-n);
        PlainAppend("-", NatString(-n));
      } else {
        NatStringPlain(n);
      }
    }
  }

  /** Zero is shown as "0", a missing value as a dash, and the number shown is the number
      stored. */
  lemma StageValueShowsNumber(mode: string, amount: Option<int>, hours: Option<int>)
    ensures var shown := if mode == "sums" then amount else hours;
      var text := OrDash(shown);
      StageValue(mode, amount, hours) == text + (if mode == "sums" then Rub else Hrs) &&
      (shown == Some(0) ==> text == "0") &&
      (shown.None? ==> text == Dash) &&
      (shown.Some? ==> ParseInt(text) == shown)
  {
    var shown := if mode == "sums" then amount else hours;
    if shown.Some? {
      ParseDecimalString(shown.value);
    }
  }

  /** A stage value needs no escaping. */
  lemma StageValueNeedsNoEscape(mode: string, amount: Option<int>, hours: Option<int>)
    ensures EscapeHtml(Some(StageValue(mode, amount, hours))) == StageValue(mode, amount, hours)
  {
    var shown := if mode == "sums" then amount else hours;
    OrDashPlain(shown);
    var tail := if mode == "sums" then Rub else Hrs;
    assert Plain(tail);
    PlainAppend(OrDash(shown), tail);
    EscapeHtmlProperties(Some(StageValue(mode, amount, hours)));
  }

  /** The add-stage button is offered only when stages are editable and counted in hours. */
  function AddButtonShown(stagesReadonly: bool, mode: string): bool {
    !stagesReadonly && mode == "hours"
  }

  /** For an order the caller is assigned to, the button is offered exactly for an hours order
      that is not read-only, and the server accepts a stage whenever the button is offered; a
      read-only order hides the button and is refused with 403. */
  lemma ButtonAgreesWithServer(db: MiniappStore.Db, orderId: string, req: AppApi.AddStageRequest, caller: int, now: int)
    requires MiniappStore.OrderFor(db, orderId, caller).Some?
    ensures var o := MiniappStore.OrderFor(db, orderId, caller).value;
      var response := AppApi.AddStage(db, orderId, req, caller, now).response;
      (AddButtonShown(o.stagesReadonly, ModeName(o.stagesDisplayMode)) <==>
         !o.stagesReadonly && o.stagesDisplayMode == MiniappStore.Hours) &&
      (AddButtonShown(o.stagesReadonly, ModeName(o.stagesDisplayMode)) ==> response.Success?) &&
      (o.stagesReadonly ==> response == HttpError(403, AppApi.ReadonlyStages))
  {
  }

  // ---------------------------------------------------------------------------------------
  // Request headers

  const InitDataHeader := "X-Telegram-Init-Data"
  const DebugHeader := "X-Debug-User-Id"
  const ContentType := "Content-Type"
  const Json := "application/json"

  /** The headers `api` sends, given the caller's headers, the page's initData and the debug
      contractor id. */
  function ApiHeaders(given: map<string, string>, initData: string, debugId: Option<int>): (h: map<string, string>) {
    var h1 := if initData != "" then given[InitDataHeader := initData] else given;
    var h2 := if debugId.Some? && debugId.value != 0 then h1[DebugHeader := DecimalString(debugId.value)] else h1;
    h2[ContentType := if ContentType in h2 && h2[ContentType] != "" then h2[ContentType] else Json]
  }

  /** The initData header is set exactly when the page has initData, the debug header exactly
      when a non-zero debug id is set, and the content type defaults to JSON only when the
      caller gave none; nothing else is touched. */
  lemma ApiHeadersEffect(given: map<string, string>, initData: string, debugId: Option<int>)
    ensures var h := ApiHeaders(given, initData, debugId);
      (initData != "" ==> h[InitDataHeader] == initData) &&
      (initData == "" ==> (InitDataHeader in h <==> InitDataHeader in given)) &&
      (debugId.Some? && debugId.value != 0 ==> h[DebugHeader] == DecimalString(debugId.value)) &&
      (!(debugId.Some? && debugId.value != 0) ==> (DebugHeader in h <==> DebugHeader in given)) &&
      h[ContentType] == (if ContentType in given && given[ContentType] != "" then given[ContentType] else Json) &&
      forall k :: k in given && k != InitDataHeader && k != DebugHeader && k != ContentType ==>
        k in h && h[k] == given[k]
  {
  }

  function HeaderValue(h: map<string, string>, name: string): Option<string> {
    if name in h then Some(h[name]) else None
  }

  /** With the server's authentication disabled, a page with a non-zero debug id is served as
      that contractor. */
  lemma DebugIdReachesServer(f: InitDataAuth.Foreign, botToken: string, now: int,
                             given: map<string, string>, initData: string, n: int, query: Option<string>)
    requires n != 0
    ensures var h := ApiHeaders(given, initData, Some(n));
      InitDataAuth.ContractorId(f, true, botToken, now, HeaderValue(h, InitDataHeader), query, HeaderValue(h, DebugHeader))
        == Success(n)
  {
    ParseDecimalString(n);
  }

  /** With authentication on, a page with initData has exactly that initData checked, whatever
      the query string holds. */
  lemma InitDataReachesServer(f: InitDataAuth.Foreign, botToken: string, now: int,
                              given: map<string, string>, initData: string, debugId: Option<int>, query: Option<string>)
    requires initData != ""
    ensures var h := ApiHeaders(given, initData, debugId);
      InitDataAuth.ContractorId(f, false, botToken, now, HeaderValue(h, InitDataHeader), query, HeaderValue(h, DebugHeader))
        == InitDataAuth.ContractorId(f, false, botToken, now, Some(initData), None, None)
  {
    var h := ApiHeaders(given, initData, debugId);
    ApiHeadersEffect(given, initData, debugId);
    assert HeaderValue(h, InitDataHeader) == Some(initData);
    InitDataAuth.HeaderPreferredOverQuery(f, botToken, now, Some(initData), query, HeaderValue(h, DebugHeader));
  }
}
