/**
 * The two halves of the filter <-> URL synchronisation: writing the criteria into the
 * page's query string, and reading them back from it (or from the filter form).
 * Queries are taken at the level of decoded key/value pairs.
 */
module QueryCodec {
  import opened Wrappers
  import opened Records
  import opened Seqs

  /** A query string as its key/value pairs, in order. */
  type Query = seq<(string, string)>

  const MinProfitKey := "min_profit"
  const MaxProfitKey := "max_profit"
  const SportKey := "sport"
  const BookmakerKey := "bookmaker"
  const BetTypeKey := "bet_type"

  /** The order in which the criteria are written. */
  const KeyOrder := [MinProfitKey, MaxProfitKey, SportKey, BookmakerKey, BetTypeKey]

  /**
   * The runtime's number conversions: `format` is `String(x)` for a finite number, and
   * `parse` is `parseFloat`.
   */
  datatype NumberText = NumberText(format: real -> string, parse: string -> Number)

  /** A finite number is written as non-empty text that reads back as the same number. */
  ghost predicate Survives(nt: NumberText, x: real) {
    nt.format(x) != "" && nt.parse(nt.format(x)) == Num(x)
  }

  /**
   * What the model relies on of the conversions: "NaN" reads back as NaN, and every
   * finite number that `parseFloat` can produce survives being written with `String`.
   * `String` and `parseFloat` meet this.
   */
  ghost predicate Faithful(nt: NumberText) {
    nt.parse("NaN") == NaN && forall s :: ReadsBack(nt, s)
  }

  /** The number read from `s`, if finite, survives being written. */
  ghost predicate ReadsBack(nt: NumberText, s: string) {
    nt.parse(s).Num? ==> Survives(nt, nt.parse(s).value)
  }

  /**
   * Conversions that meet the hypothesis exist, so the results stated under it are not
   * vacuous: for instance a `format` that writes every number as "0" and a `parse` that
   * reads everything but "NaN" as 0.
   */
  lemma FaithfulConversionsExist()
    ensures exists nt :: Faithful(nt)
  {
    var nt := NumberText(x => "0", s => if s == "NaN" then NaN else Num(0.0));
    assert Survives(nt, 0.0);
    assert forall s :: ReadsBack(nt, s);
    assert Faithful(nt);
  }

  /** A bound that reads back as itself once written (NaN and "unset" always do under `Faithful`). */
  ghost predicate BoundSurvives(nt: NumberText, b: Option<Number>) {
    b.Some? && b.value.Num? ==> Survives(nt, b.value.value)
  }

  /** `String(n)` for a filter bound. */
  function NumberToText(nt: NumberText, n: Number): (text: string) {
    match n
    case Num(x) => nt.format(x)
    case NaN => "NaN"
  }

  /** The keys of a query, in order. */
  function Keys(q: Query): (ks: seq<string>)
    ensures |ks| == |q| && forall i :: 0 <= i < |q| ==> ks[i] == q[i].0
  {
    if q == [] then [] else [q[0].0] + Keys(q[1..])
  }

  /** Position `i` holds the first pair of `q` with this key. */
  ghost predicate FirstWithKey(q: Query, key: string, i: int) {
    0 <= i < |q| && q[i].0 == key && forall j :: 0 <= j < i ==> q[j].0 != key
  }

  /** `URLSearchParams.get`: the value of the first pair with this key, if any. */
  function Get(q: Query, key: string): (v: Option<string>)
    ensures v.None? <==> key !in Keys(q)
    ensures v.Some? ==> (key, v.value) in q
  {
    if q == [] then None
    else if q[0].0 == key then Some(q[0].1)
    else Get(q[1..], key)
  }

  /** With repeated keys, `get` returns the value of the first pair with the key. */
  lemma {:induction false} GetReturnsFirst(q: Query, key: string)
    ensures forall i :: FirstWithKey(q, key, i) ==> Get(q, key) == Some(q[i].1)
  {
    if q != [] && q[0].0 != key {
      GetReturnsFirst(q[1..], key);
      assert forall i :: FirstWithKey(q, key, i) ==> FirstWithKey(q[1..], key, i - 1);
    }
  }

  /** The pair for one criterion, present only when the criterion is set. */
  function Param(isSet: bool, key: string, value: string): (q: Query) {
    if isSet then [(key, value)] else []
  }

  /** Whether the criterion under `key` is set in `f`. */
  predicate IsSetUnder(f: Filters, key: string) {
    || (key == MinProfitKey && f.minProfit.Some?)
    || (key == MaxProfitKey && f.maxProfit.Some?)
    || (key == SportKey && f.sport != "")
    || (key == BookmakerKey && f.bookmaker != "")
    || (key == BetTypeKey && f.betType != "")
  }

  /** The text `updateUrlWithFilters` writes under `key` (used only where the criterion is set). */
  function TextUnder(nt: NumberText, f: Filters, key: string): (text: string) {
    if key == MinProfitKey then (if f.minProfit.Some? then NumberToText(nt, f.minProfit.value) else "")
    else if key == MaxProfitKey then (if f.maxProfit.Some? then NumberToText(nt, f.maxProfit.value) else "")
    else if key == SportKey then f.sport
    else if key == BookmakerKey then f.bookmaker
    else f.betType
  }

  lemma {:induction false} KeysAppend(a: Query, b: Query)
    ensures Keys(a + b) == Keys(a) + Keys(b)
  {
    if a != [] {
      assert (a + b)[1..] == a[1..] + b;
      KeysAppend(a[1..], b);
    } else {
      assert a + b == b;
    }
  }

  /** The keys a `Param` contributes. */
  function KeysIf(isSet: bool, key: string): (ks: seq<string>) {
    if isSet then [key] else []
  }

  lemma {:induction false} SelectedKeysInOrder(b1: bool, b2: bool, b3: bool, b4: bool, b5: bool)
    ensures IsSubsequence(KeysIf(b1, MinProfitKey) + KeysIf(b2, MaxProfitKey) + KeysIf(b3, SportKey)
                          + KeysIf(b4, BookmakerKey) + KeysIf(b5, BetTypeKey), KeyOrder)
  {
    var k1, k2, k3, k4, k5 := KeysIf(b1, MinProfitKey), KeysIf(b2, MaxProfitKey), KeysIf(b3, SportKey),
                              KeysIf(b4, BookmakerKey), KeysIf(b5, BetTypeKey);
    forall b: bool, key: string ensures IsSubsequence(KeysIf(b, key), [key]) {
      if b {
        assert [key][1..] == [];
      }
    }
    SubsequenceConcat(k1, [MinProfitKey], k2, [MaxProfitKey]);
    assert [MinProfitKey] + [MaxProfitKey] == [MinProfitKey, MaxProfitKey];
    SubsequenceConcat(k1 + k2, [MinProfitKey, MaxProfitKey], k3, [SportKey]);
    assert [MinProfitKey, MaxProfitKey] + [SportKey] == [MinProfitKey, MaxProfitKey, SportKey];
    SubsequenceConcat(k1 + k2 + k3, [MinProfitKey, MaxProfitKey, SportKey], k4, [BookmakerKey]);
    assert [MinProfitKey, MaxProfitKey, SportKey] + [BookmakerKey] == [MinProfitKey, MaxProfitKey, SportKey, BookmakerKey];
    SubsequenceConcat(k1 + k2 + k3 + k4, [MinProfitKey, MaxProfitKey, SportKey, BookmakerKey], k5, [BetTypeKey]);
    assert [MinProfitKey, MaxProfitKey, SportKey, BookmakerKey] + [BetTypeKey] == KeyOrder;
  }

  lemma KeysDiffer()
    ensures MinProfitKey != MaxProfitKey && MinProfitKey != SportKey && MinProfitKey != BookmakerKey
    ensures MinProfitKey != BetTypeKey && MaxProfitKey != SportKey && MaxProfitKey != BookmakerKey
    ensures MaxProfitKey != BetTypeKey && SportKey != BookmakerKey && SportKey != BetTypeKey
    ensures BookmakerKey != BetTypeKey
  {
    assert MinProfitKey[1] != MaxProfitKey[1];
  }

  /**
   * `updateUrlWithFilters`: a pair for each set criterion, written in the order of
   * `KeyOrder` (each key is set once on a fresh `URLSearchParams`, where `set` appends).
   */
  function Encode(nt: NumberText, f: Filters): (q: Query)
    ensures |q| <= |KeyOrder|
  {
    Param(f.minProfit.Some?, MinProfitKey, TextUnder(nt, f, MinProfitKey))
    + Param(f.maxProfit.Some?, MaxProfitKey, TextUnder(nt, f, MaxProfitKey))
    + Param(f.sport != "", SportKey, TextUnder(nt, f, SportKey))
    + Param(f.bookmaker != "", BookmakerKey, TextUnder(nt, f, BookmakerKey))
    + Param(f.betType != "", BetTypeKey, TextUnder(nt, f, BetTypeKey))
  }

  lemma KeysOfEncode(nt: NumberText, f: Filters)
    ensures Keys(Encode(nt, f)) == KeysIf(f.minProfit.Some?, MinProfitKey) + KeysIf(f.maxProfit.Some?, MaxProfitKey)
      + KeysIf(f.sport != "", SportKey) + KeysIf(f.bookmaker != "", BookmakerKey) + KeysIf(f.betType != "", BetTypeKey)
  {
    var q1 := Param(f.minProfit.Some?, MinProfitKey, TextUnder(nt, f, MinProfitKey));
    var q2 := Param(f.maxProfit.Some?, MaxProfitKey, TextUnder(nt, f, MaxProfitKey));
    var q3 := Param(f.sport != "", SportKey, TextUnder(nt, f, SportKey));
    var q4 := Param(f.bookmaker != "", BookmakerKey, TextUnder(nt, f, BookmakerKey));
    var q5 := Param(f.betType != "", BetTypeKey, TextUnder(nt, f, BetTypeKey));
    KeysOfParams(q1, q2, q3, q4, q5);
    KeysOfParam(f.minProfit.Some?, MinProfitKey, TextUnder(nt, f, MinProfitKey));
    KeysOfParam(f.maxProfit.Some?, MaxProfitKey, TextUnder(nt, f, MaxProfitKey));
    KeysOfParam(f.sport != "", SportKey, TextUnder(nt, f, SportKey));
    KeysOfParam(f.bookmaker != "", BookmakerKey, TextUnder(nt, f, BookmakerKey));
    KeysOfParam(f.betType != "", BetTypeKey, TextUnder(nt, f, BetTypeKey));
  }

  lemma KeysOfParam(isSet: bool, key: string, value: string)
    ensures Keys(Param(isSet, key, value)) == KeysIf(isSet, key)
  {
  }

  /** The keys come in the order of `KeyOrder`, so each at most once. */
  lemma EncodeKeysInOrder(nt: NumberText, f: Filters)
    ensures IsSubsequence(Keys(Encode(nt, f)), KeyOrder)
  {
    KeysOfEncode(nt, f);
    SelectedKeysInOrder(f.minProfit.Some?, f.maxProfit.Some?, f.sport != "", f.bookmaker != "", f.betType != "");
  }

  /** A key is written exactly when its criterion is set; nothing is written when none is. */
  lemma EncodeWritesSetKeys(nt: NumberText, f: Filters)
    ensures forall key :: key in Keys(Encode(nt, f)) <==> IsSetUnder(f, key)
    ensures Encode(nt, f) == [] <==> f == InitialFilters
  {
    KeysOfEncode(nt, f);
    KeysDiffer();
  }

  /** Each pair carries the value of its criterion, the bounds as `String(n)`. */
  lemma EncodeWritesValues(nt: NumberText, f: Filters)
    ensures forall p :: p in Encode(nt, f) ==> p.1 == TextUnder(nt, f, p.0)
  {
  }

  lemma KeysOfParams(q1: Query, q2: Query, q3: Query, q4: Query, q5: Query)
    ensures Keys(q1 + q2 + q3 + q4 + q5) == Keys(q1) + Keys(q2) + Keys(q3) + Keys(q4) + Keys(q5)
  {
    KeysAppend(q1, q2);
    KeysAppend(q1 + q2, q3);
    KeysAppend(q1 + q2 + q3, q4);
    KeysAppend(q1 + q2 + q3 + q4, q5);
  }

  /** A bound as read from a text field: empty or missing is `null`, anything else is parsed. */
  function ParseBound(nt: NumberText, text: Option<string>): (b: Option<Number>)
    ensures b.None? <==> text == None || text == Some("")
    ensures b.Some? ==> b.value == nt.parse(text.value)
    ensures Faithful(nt) ==> BoundSurvives(nt, b)
  {
    if text.None? || text.value == "" then None
    else
      assert Faithful(nt) ==> ReadsBack(nt, text.value);
      Some(nt.parse(text.value))
  }

  /**
   * `applyFiltersFromUrl`, the reading half: a missing or empty key leaves its criterion
   * unset, a present numeric value is parsed (junk becomes NaN, not unset).
   */
  function Decode(nt: NumberText, q: Query): (f: Filters)
    ensures f.minProfit.None? <==> Get(q, MinProfitKey).GetOr("") == ""
    ensures f.maxProfit.None? <==> Get(q, MaxProfitKey).GetOr("") == ""
    ensures f.sport == "" <==> Get(q, SportKey).GetOr("") == ""
    ensures f.bookmaker == "" <==> Get(q, BookmakerKey).GetOr("") == ""
    ensures f.betType == "" <==> Get(q, BetTypeKey).GetOr("") == ""
    ensures f.minProfit.Some? ==> f.minProfit.value == nt.parse(Get(q, MinProfitKey).value)
    ensures f.maxProfit.Some? ==> f.maxProfit.value == nt.parse(Get(q, MaxProfitKey).value)
    ensures f.sport != "" ==> Get(q, SportKey) == Some(f.sport)
    ensures f.bookmaker != "" ==> Get(q, BookmakerKey) == Some(f.bookmaker)
    ensures f.betType != "" ==> Get(q, BetTypeKey) == Some(f.betType)
    ensures Faithful(nt) ==> BoundSurvives(nt, f.minProfit) && BoundSurvives(nt, f.maxProfit)
  {
    var minText, maxText := Get(q, MinProfitKey), Get(q, MaxProfitKey);
    var sport, bookmaker, betType := Get(q, SportKey), Get(q, BookmakerKey), Get(q, BetTypeKey);
    Filters(ParseBound(nt, minText), ParseBound(nt, maxText), sport.GetOr(""), bookmaker.GetOr(""), betType.GetOr(""))
  }

  /** What the filter form holds: the raw text of the two number inputs and the three selections. */
  datatype FormInput = FormInput(minProfit: string, maxProfit: string, sport: string, bookmaker: string, betType: string)

  /** The criteria `applyFilters` reads from the form. */
  function FromForm(nt: NumberText, form: FormInput): (f: Filters)
    ensures f.minProfit.None? <==> form.minProfit == ""
    ensures f.maxProfit.None? <==> form.maxProfit == ""
    ensures f.minProfit.Some? ==> f.minProfit.value == nt.parse(form.minProfit)
    ensures f.maxProfit.Some? ==> f.maxProfit.value == nt.parse(form.maxProfit)
    ensures Faithful(nt) ==> BoundSurvives(nt, f.minProfit) && BoundSurvives(nt, f.maxProfit)
    ensures (f.sport, f.bookmaker, f.betType) == (form.sport, form.bookmaker, form.betType)
  {
    Filters(ParseBound(nt, Some(form.minProfit)), ParseBound(nt, Some(form.maxProfit)),
            form.sport, form.bookmaker, form.betType)
  }

  lemma {:induction false} GetAppend(q1: Query, q2: Query, key: string)
    ensures Get(q1 + q2, key) == if Get(q1, key).Some? then Get(q1, key) else Get(q2, key)
  {
    if q1 != [] {
      assert (q1 + q2)[0] == q1[0] && (q1 + q2)[1..] == q1[1..] + q2;
      GetAppend(q1[1..], q2, key);
    } else {
      assert q1 + q2 == q2;
    }
  }

  /** Reading a bound back from the text it was written as gives the same bound. */
  lemma BoundRoundTrip(nt: NumberText, b: Option<Number>)
    requires Faithful(nt) && BoundSurvives(nt, b)
    ensures ParseBound(nt, if b.Some? then Some(NumberToText(nt, b.value)) else None) == b
  {
    if b.Some? && b.value.Num? {
      assert nt.format(b.value.value) != "";
    }
  }

  /** Reading the query of `f` under `key` gives the text written for it, if it is set. */
  lemma GetEncoded(nt: NumberText, f: Filters, key: string)
    ensures Get(Encode(nt, f), key) == if IsSetUnder(f, key) then Some(TextUnder(nt, f, key)) else None
  {
    var q := Encode(nt, f);
    var v := Get(q, key);
    EncodeWritesSetKeys(nt, f);
    EncodeWritesValues(nt, f);
    if v.Some? {
      assert (key, v.value) in q;
    }
  }

  /**
   * Round trip: decoding the query written for criteria gives the criteria back, for
   * every string and every bound that survives being written (NaN, and every number
   * read from a form or a query).
   */
  lemma DecodeEncode(nt: NumberText, f: Filters)
    requires Faithful(nt) && BoundSurvives(nt, f.minProfit) && BoundSurvives(nt, f.maxProfit)
    ensures Decode(nt, Encode(nt, f)) == f
  {
    KeysDiffer();
    GetEncoded(nt, f, MinProfitKey);
    GetEncoded(nt, f, MaxProfitKey);
    GetEncoded(nt, f, SportKey);
    GetEncoded(nt, f, BookmakerKey);
    GetEncoded(nt, f, BetTypeKey);
    BoundRoundTrip(nt, f.minProfit);
    BoundRoundTrip(nt, f.maxProfit);
  }

  /**
   * Criteria read from the filter form are written to the query string in a form that
   * reads back as the same criteria.
   */
  lemma FormRoundTrip(nt: NumberText, form: FormInput)
    requires Faithful(nt)
    ensures Decode(nt, Encode(nt, FromForm(nt, form))) == FromForm(nt, form)
  {
    DecodeEncode(nt, FromForm(nt, form));
  }

  /**
   * Reading the criteria from any query string and writing them back gives a query
   * that reads as the same criteria: `updateUrlWithFilters` after
   * `applyFiltersFromUrl` changes nothing that the page reads.
   */
  lemma DecodeEncodeDecode(nt: NumberText, q: Query)
    requires Faithful(nt)
    ensures Decode(nt, Encode(nt, Decode(nt, q))) == Decode(nt, q)
  {
    DecodeEncode(nt, Decode(nt, q));
  }

  /** `URLSearchParams.toString`, without the percent-escaping: `k=v` pairs joined by `&`. */
  function Serialize(q: Query): (s: string)
    ensures s == "" <==> q == []
  {
    if q == [] then ""
    else q[0].0 + "=" + q[0].1 + (if |q| > 1 then "&" + Serialize(q[1..]) else "")
  }

  /**
   * The address pushed onto the history: the path alone when no criterion is set,
   * otherwise the path, a `?` and the query.
   */
  function NewUrl(pathname: string, q: Query): (url: string)
    ensures url == pathname <==> q == []
    ensures q != [] ==> |url| > |pathname| && url[..|pathname| + 1] == pathname + "?"
  {
    var search := Serialize(q);
    pathname + (if search != "" then "?" + search else "")
  }
}
