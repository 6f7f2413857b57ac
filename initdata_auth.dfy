/** Authentication of mini-app requests by Telegram's initData, following the procedure
    "Validating data received via the Mini App" of the Telegram Bot API documentation: the query
    string's pairs (without `hash`) sorted by key, written `key=value` and joined by line feeds,
    are signed with HMAC-SHA256 under the key HMAC-SHA256("WebAppData", bot token), and the
    lower-case hex of that signature must equal `hash`. The query-string parser, HMAC-SHA256,
    UTF-8 encoding, hex encoding and the JSON decoding of `user` are foreign functions and are
    passed in; the current time is a parameter. An unhandled exception is answered with
    status 500. */
module InitDataAuth {
  import opened Common
  import opened Sorting

  type Bytes = seq<bv8>
  type Pair = (string, string)

  datatype Foreign = Foreign(
    parseQuery: string -> seq<Pair>,
    hmacSha256: (Bytes, Bytes) -> Bytes,
    utf8: string -> Bytes,
    hex: Bytes -> string,
    /** `int(json.loads(user)["id"])`; None stands for any exception it raises. */
    userId: string -> Option<int>)

  const MissingHash := "Missing hash in initData"
  const BadSignature := "Bad initData signature"
  const Expired := "initData expired"
  const MissingUser := "Missing user in initData"
  const AuthDisabledNoDebug := "TELEGRAM_AUTH_DISABLED: provide X-Debug-User-Id"
  const MissingInitData := "Missing initData (use X-Telegram-Init-Data header)"
  const ServerError := "Internal Server Error"

  /** The largest accepted age of `auth_date`, in seconds (48 hours). */
  const MaxAge := 172800

  /** The bytes of `b"WebAppData"`. */
  const WebAppDataKey: Bytes := [0x57, 0x65, 0x62, 0x41, 0x70, 0x70, 0x44, 0x61, 0x74, 0x61]

  // ---------------------------------------------------------------------------------------
  // `dict(pairs)` as its list of items

  function KeyOf(p: Pair): string { p.0 }

  predicate UniqueKeys(items: seq<Pair>) {
    forall i, j :: 0 <= i < j < |items| ==> items[i].0 != items[j].0
  }

  /** `d[k] = v` on a dict's items: an existing key keeps its place and takes the new value. */
  function SetItem(items: seq<Pair>, k: string, v: string): (r: seq<Pair>)
    ensures forall x :: x in r ==> x == (k, v) || x in items
  {
    if items == [] then [(k, v)]
    else if items[0].0 == k then [(k, v)] + items[1..]
    else [items[0]] + SetItem(items[1..], k, v)
  }

  /** `dict(pairs)`: a later value for a key replaces an earlier one. */
  function DictItems(pairs: seq<Pair>): seq<Pair>
    decreases |pairs|
  {
    if pairs == [] then []
    else
      var last := pairs[|pairs| - 1];
      SetItem(DictItems(pairs[..|pairs| - 1]), last.0, last.1)
  }

  function Lookup(items: seq<Pair>, k: string): Option<string> {
    if items == [] then None
    else if items[0].0 == k then Some(items[0].1)
    else Lookup(items[1..], k)
  }

  /** `d.pop(k, None)` as far as what is left is concerned. */
  function Remove(items: seq<Pair>, k: string): (r: seq<Pair>)
    ensures forall x :: x in r <==> x in items && x.0 != k
  {
    if items == [] then []
    else (if items[0].0 != k then [items[0]] else []) + Remove(items[1..], k)
  }

  /** The value the last pair with key `k` carries. */
  function LastValue(pairs: seq<Pair>, k: string): Option<string>
    decreases |pairs|
  {
    if pairs == [] then None
    else if pairs[|pairs| - 1].0 == k then Some(pairs[|pairs| - 1].1)
    else LastValue(pairs[..|pairs| - 1], k)
  }

  lemma {:induction false} SetItemEffect(items: seq<Pair>, k: string, v: string)
    requires UniqueKeys(items)
    ensures UniqueKeys(SetItem(items, k, v))
    ensures forall j :: Lookup(SetItem(items, k, v), j) == if j == k then Some(v) else Lookup(items, j)
    decreases |items|
  {
    if items != [] && items[0].0 != k {
      var rest := SetItem(items[1..], k, v);
      SetItemEffect(items[1..], k, v);
      forall x | x in rest ensures x.0 != items[0].0 {
        if x != (k, v) {
          var i :| 0 <= i < |items[1..]| && items[1..][i] == x;
          assert items[i + 1] == x;
        }
      }
    } else if items != [] {
      forall x | x in items[1..] ensures x.0 != k {
        var i :| 0 <= i < |items[1..]| && items[1..][i] == x;
        assert items[i + 1] == x;
      }
      LookupAbsent(items[1..], k);
    }
  }

  lemma {:induction false} LookupAbsent(items: seq<Pair>, k: string)
    requires forall x :: x in items ==> x.0 != k
    ensures Lookup(items, k).None?
    decreases |items|
  {
    if items != [] {
      assert items[0] in items;
      LookupAbsent(items[1..], k);
    }
  }

  /** `dict(pairs)` has each key once, and looking a key up gives the last value given for it. */
  lemma {:induction false} DictLastValueWins(pairs: seq<Pair>)
    ensures UniqueKeys(DictItems(pairs))
    ensures forall k :: Lookup(DictItems(pairs), k) == LastValue(pairs, k)
    decreases |pairs|
  {
    if pairs != [] {
      var last := pairs[|pairs| - 1];
      DictLastValueWins(pairs[..|pairs| - 1]);
      SetItemEffect(DictItems(pairs[..|pairs| - 1]), last.0, last.1);
    }
  }

  lemma DictLookup(pairs: seq<Pair>, k: string)
    ensures Lookup(DictItems(pairs), k) == LastValue(pairs, k)
  {
    DictLastValueWins(pairs);
  }

  /** With each key once, a pair is among the items exactly when looking its key up gives its
      value. */
  lemma {:induction false} ItemIffLookup(items: seq<Pair>, k: string, v: string)
    requires UniqueKeys(items)
    ensures (k, v) in items <==> Lookup(items, k) == Some(v)
    decreases |items|
  {
    if items != [] {
      if items[0].0 == k {
        forall x | x in items[1..] ensures x.0 != k {
          var i :| 0 <= i < |items[1..]| && items[1..][i] == x;
          assert items[i + 1] == x;
        }
      } else {
        ItemIffLookup(items[1..], k, v);
      }
    }
  }

  lemma {:induction false} LookupAfterRemove(items: seq<Pair>, k: string, j: string)
    requires j != k
    ensures Lookup(Remove(items, k), j) == Lookup(items, j)
    decreases |items|
  {
    if items != [] {
      LookupAfterRemove(items[1..], k, j);
      var head: seq<Pair> := if items[0].0 != k then [items[0]] else [];
      assert Remove(items, k) == head + Remove(items[1..], k);
      if head != [] {
        assert (head + Remove(items[1..], k))[0] == items[0];
        assert (head + Remove(items[1..], k))[1..] == Remove(items[1..], k);
      } else {
        assert head + Remove(items[1..], k) == Remove(items[1..], k);
      }
    }
  }

  lemma {:induction false} RemoveKeepsUnique(items: seq<Pair>, k: string)
    requires UniqueKeys(items)
    ensures UniqueKeys(Remove(items, k))
    decreases |items|
  {
    if items != [] {
      RemoveKeepsUnique(items[1..], k);
      var rest := Remove(items[1..], k);
      forall x | x in rest ensures x.0 != items[0].0 {
        var i :| 0 <= i < |items[1..]| && items[1..][i] == x;
        assert items[i + 1] == x;
      }
    }
  }

  // ---------------------------------------------------------------------------------------
  // The data-check string

  /** The items of the data without `hash`, sorted by key. */
  function CheckedPairs(data: seq<Pair>): seq<Pair> {
    SortByText(data, KeyOf)
  }

  function Line(p: Pair): string {
    p.0 + "=" + p.1
  }

  /** `"\n".join(lines)`. */
  function JoinLines(lines: seq<string>): string
    decreases |lines|
  {
    if lines == [] then ""
    else if |lines| == 1 then lines[0]
    else lines[0] + "\n" + JoinLines(lines[1..])
  }

  function DataCheckString(data: seq<Pair>): string {
    var sorted := CheckedPairs(data);
    JoinLines(seq(|sorted|, i requires 0 <= i < |sorted| => Line(sorted[i])))
  }

  lemma UniqueKeysDistinct(items: seq<Pair>)
    ensures UniqueKeys(items) <==> DistinctText(items, KeyOf)
  {
  }

  /** The pairs written into the data-check string are exactly the query's pairs other than
      `hash`, each key once with the last value the query gave it, in key order. */
  lemma DataCheckPairsExact(pairs: seq<Pair>)
    ensures var sorted := CheckedPairs(Remove(DictItems(pairs), "hash"));
      AscendingText(sorted, KeyOf) && UniqueKeys(sorted) &&
      forall k, v :: (k, v) in sorted <==> k != "hash" && LastValue(pairs, k) == Some(v)
  {
    var items := DictItems(pairs);
    var data := Remove(items, "hash");
    var sorted := CheckedPairs(data);
    DictLastValueWins(pairs);
    RemoveKeepsUnique(items, "hash");
    UniqueKeysDistinct(data);
    SortDistinct(data, KeyOf);
    UniqueKeysDistinct(sorted);
    forall k, v ensures (k, v) in sorted <==> k != "hash" && LastValue(pairs, k) == Some(v) {
      assert (k, v) in sorted <==> (k, v) in multiset(sorted);
      assert (k, v) in data <==> (k, v) in multiset(data);
      ItemIffLookup(items, k, v);
    }
  }

  /** Python's `sorted(data.items())` compares whole pairs, the model's sort only keys. With
      each key once they agree: every arrangement of the items that is ascending by key is the
      one the model writes. */
  lemma CheckedPairsAgreeWithSorted(data: seq<Pair>, other: seq<Pair>)
    requires UniqueKeys(data) && multiset(other) == multiset(data)
    requires UniqueKeys(other) && AscendingText(other, KeyOf)
    ensures CheckedPairs(data) == other
  {
    UniqueKeysDistinct(data);
    UniqueKeysDistinct(other);
    SortDistinct(data, KeyOf);
    UniqueKeysDistinct(CheckedPairs(data));
    AscendingDistinctUnique(CheckedPairs(data), other, KeyOf);
  }

  // ---------------------------------------------------------------------------------------
  // The check chain

  function SecretKey(f: Foreign, botToken: string): Bytes {
    f.hmacSha256(WebAppDataKey, f.utf8(botToken))
  }

  function CalculatedHash(f: Foreign, botToken: string, dataCheck: string): string {
    f.hex(f.hmacSha256(SecretKey(f, botToken), f.utf8(dataCheck)))
  }

  /** `hmac.compare_digest` accepts only ASCII text and raises otherwise. */
  predicate IsAscii(s: string) {
    forall i :: 0 <= i < |s| ==> s[i] < 128 as char
  }

  /** Whether `auth_date` makes the data too old: only a non-empty value that reads as an
      integer is checked. */
  predicate TooOld(authDate: Option<string>, now: int) {
    Present(authDate) && ParseInt(authDate.value).Some? && now - ParseInt(authDate.value).value > MaxAge
  }

  /** `_check_telegram_webapp_signature(initData, botToken)` at time `now`: the user field
      of valid data, or the refusal. */
  function CheckInitData(f: Foreign, initData: string, botToken: string, now: int): Http<string> {
    var items := DictItems(f.parseQuery(initData));
    var received := Lookup(items, "hash");
    var data := Remove(items, "hash");
    if !Present(received) then HttpError(401, MissingHash)
    else if !IsAscii(received.value) then HttpError(500, ServerError)
    else if CalculatedHash(f, botToken, DataCheckString(data)) != received.value then HttpError(401, BadSignature)
    else if TooOld(Lookup(data, "auth_date"), now) then HttpError(401, Expired)
    else if !Present(Lookup(data, "user")) then HttpError(401, MissingUser)
    else Success(Lookup(data, "user").value)
  }

  /** The checks run in the order hash, signature, age, user; the data is accepted exactly
      when all of them pass, and then its `user` value is passed on. */
  lemma CheckOrder(f: Foreign, initData: string, botToken: string, now: int)
    ensures var pairs := f.parseQuery(initData);
      var hash := LastValue(pairs, "hash");
      var data := Remove(DictItems(pairs), "hash");
      var signed := Present(hash) && IsAscii(hash.value) && CalculatedHash(f, botToken, DataCheckString(data)) == hash.value;
      var r := CheckInitData(f, initData, botToken, now);
      (!Present(hash) ==> r == HttpError(401, MissingHash)) &&
      (Present(hash) && !IsAscii(hash.value) ==> r == HttpError(500, ServerError)) &&
      (Present(hash) && IsAscii(hash.value) && !signed ==> r == HttpError(401, BadSignature)) &&
      (signed && TooOld(LastValue(pairs, "auth_date"), now) ==> r == HttpError(401, Expired)) &&
      (signed && !TooOld(LastValue(pairs, "auth_date"), now) && !Present(LastValue(pairs, "user")) ==>
         r == HttpError(401, MissingUser)) &&
      (r.Success? <==> signed && !TooOld(LastValue(pairs, "auth_date"), now) && Present(LastValue(pairs, "user"))) &&
      (r.Success? ==> Some(r.value) == LastValue(pairs, "user"))
  {
    var pairs := f.parseQuery(initData);
    var items := DictItems(pairs);
    DictLookup(pairs, "hash");
    DictLookup(pairs, "auth_date");
    DictLookup(pairs, "user");
    LookupAfterRemove(items, "hash", "auth_date");
    LookupAfterRemove(items, "hash", "user");
  }

  /** An `auth_date` that is absent, empty or not an integer never makes the data expire. */
  lemma UnreadableAuthDateSkipsAgeCheck(authDate: Option<string>, now: int)
    requires !Present(authDate) || ParseInt(authDate.value).None?
    ensures !TooOld(authDate, now)
  {
  }

  /** Data signed at time `t` written in decimal expires exactly when more than 48 hours have
      passed. */
  lemma AgeLimit(t: int, now: int)
    ensures TooOld(Some(DecimalString(t)), now) <==> now - t > MaxAge
  {
    ParseDecimalString(t);
  }

  // ---------------------------------------------------------------------------------------
  // Choosing the caller

  /** `get_current_contractor_id`: with authentication disabled the debug header is the
      caller; otherwise the initData header, or failing that the `initData` query parameter,
      is checked. */
  function ContractorId(f: Foreign, authDisabled: bool, botToken: string, now: int,
                        initDataHeader: Option<string>, initDataQuery: Option<string>,
                        debugUserId: Option<string>): Http<int> {
    if authDisabled then
      if !Present(debugUserId) then HttpError(401, AuthDisabledNoDebug)
      else if ParseInt(debugUserId.value).None? then HttpError(500, ServerError)
      else Success(ParseInt(debugUserId.value).value)
    else
      var initData := if Present(initDataHeader) then initDataHeader else initDataQuery;
      if !Present(initData) then HttpError(401, MissingInitData)
      else match CheckInitData(f, initData.value, botToken, now)
        case HttpError(status, detail) => HttpError(status, detail)
        case Success(user) =>
          if f.userId(user).None? then HttpError(500, ServerError) else Success(f.userId(user).value)
  }

  /** With authentication disabled the caller is the debug header's number, a missing header
      is refused with 401, and the initData is never looked at. */
  lemma DisabledModeUsesDebugHeader(f: Foreign, g: Foreign, botToken: string, now: int,
                                    header: Option<string>, query: Option<string>, debugUserId: Option<string>)
    ensures ContractorId(f, true, botToken, now, header, query, debugUserId)
         == ContractorId(g, true, "", 0, None, None, debugUserId)
    ensures !Present(debugUserId) ==> ContractorId(f, true, botToken, now, header, query, debugUserId) == HttpError(401, AuthDisabledNoDebug)
    ensures forall n :: ContractorId(f, true, botToken, now, header, query, Some(DecimalString(n))) == Success(n)
  {
    forall n ensures ContractorId(f, true, botToken, now, header, query, Some(DecimalString(n))) == Success(n) {
      ParseDecimalString(n);
    }
  }

  /** With authentication on, a non-empty header is checked and the query parameter is
      ignored; when both are missing or empty the request is refused with 401; a refusal of
      the check is the answer. */
  lemma HeaderPreferredOverQuery(f: Foreign, botToken: string, now: int,
                                 header: Option<string>, query: Option<string>, debugUserId: Option<string>)
    ensures Present(header) ==>
      ContractorId(f, false, botToken, now, header, query, debugUserId)
        == ContractorId(f, false, botToken, now, header, None, None)
    ensures !Present(header) && !Present(query) ==>
      ContractorId(f, false, botToken, now, header, query, debugUserId) == HttpError(401, MissingInitData)
    ensures Present(header) && CheckInitData(f, header.value, botToken, now).HttpError? ==>
      var refusal := CheckInitData(f, header.value, botToken, now);
      ContractorId(f, false, botToken, now, header, query, debugUserId) == HttpError(refusal.status, refusal.detail)
    ensures Present(header) && CheckInitData(f, header.value, botToken, now).Success? ==>
      var user := CheckInitData(f, header.value, botToken, now).value;
      ContractorId(f, false, botToken, now, header, query, debugUserId) ==
        (if f.userId(user).Some? then Success(f.userId(user).value) else HttpError(500, ServerError))
  {
  }
}
