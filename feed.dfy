/**
 * The shapes of the feed's responses as far as the competition engine reads
 * them, and the small string helpers it applies to them.
 */
module Feed {
  import opened Wrappers

  /** The four resource kinds the engine requests (an explicit tag in place of lookup by name). */
  datatype ResourceKind = Events | Results | History | Stats

  /** A decoded response body: anything that is not a JSON list, or a list of elements. */
  datatype Body<T> = NotList | List(items: seq<Element<T>>)

  /** One element of a list body: something other than a JSON object, or an object. */
  datatype Element<T> = NotDict | Dict(value: T)

  /** Per-event statistics are carried through without interpretation. */
  type EventStats = seq<int>

  /** A fixture participant; `id` is the text the feed sends, which the engine passes to `int()`. */
  datatype Participant = Participant(id: string, fifaCode: string)

  /** The handicap settlement lists copied from a result. */
  datatype Handicap = Handicap(halfLost: seq<int>, halfWon: seq<int>, refund: seq<int>)

  /** The `data` object of a fixtures block; a missing or empty object is `None`. */
  datatype FixtureData = FixtureData(leagueId: Option<int>, matchDay: Option<int>)

  /**
   * One fixture; `teams` are the first two entries of its `data.participants`,
   * `None` when `data` or `participants` is missing or holds fewer than two.
   */
  datatype FixtureEvent = FixtureEvent(eventId: int, teams: Option<(Participant, Participant)>, stats: EventStats)

  datatype FixtureBlock = FixtureBlock(eBlockId: Option<int>, data: Option<FixtureData>, events: seq<FixtureEvent>)

  /** The `data` object of a settlement: the replay URL and the handicap lists. */
  datatype SettlementData = SettlementData(videoUrl: Option<string>, handicap: Handicap)

  /** The `result` object of a settled event; `wonMarkets` are market ids as the feed spells them. */
  datatype Settlement = Settlement(wonMarkets: Option<seq<string>>, data: Option<SettlementData>)

  /** One event of a results block; `result` is `None` when the key is missing. */
  datatype ResultEvent = ResultEvent(eventId: int, result: Option<Settlement>)

  datatype ResultBlock = ResultBlock(eBlockId: Option<int>, events: seq<ResultEvent>)

  /** One event of a history week; `result` is `None` when absent or empty. */
  datatype HistoryEvent = HistoryEvent(eventId: int, home: Participant, away: Participant, result: Option<Settlement>)

  datatype HistoryWeek = HistoryWeek(eBlockId: int, leagueId: Option<int>, matchDay: int, events: seq<HistoryEvent>)

  /** What the engine hands the table for one settled event. */
  datatype ResultRow = ResultRow(id: int, teamA: Option<string>, teamB: Option<string>, score: (int, int))

  datatype EventOutcome = EventOutcome(row: ResultRow, won: seq<int>, handicap: Handicap)

  /** Python truthiness of an optional integer: present and non-zero. */
  predicate Truthy(o: Option<int>)
  {
    o.Some? && o.value != 0
  }

  // ---------------------------------------------------------------------------
  // str.split and int() as used on the settlement video URL

  /** Python's `s.split(sep)`: cut at every occurrence of `sep`. */
  function Split(s: string, sep: char): (parts: seq<string>)
    ensures |parts| >= 1
    decreases |s|
  {
    if s == [] then [[]]
    else
      var rest := Split(s[1..], sep);
      if s[0] == sep then [[]] + rest else [[s[0]] + rest[0]] + rest[1..]
  }

  /** `sep.join(parts)`, the inverse of `Split` on parts free of `sep`. */
  function Join(parts: seq<string>, sep: char): string
    requires |parts| >= 1
  {
    if |parts| == 1 then parts[0] else parts[0] + [sep] + Join(parts[1..], sep)
  }

  predicate Free(s: string, sep: char)
  {
    forall i :: 0 <= i < |s| ==> s[i] != sep
  }

  lemma {:induction false} SplitCons(c: char, s: string, sep: char)
    requires c != sep
    ensures Split([c] + s, sep) == [[c] + Split(s, sep)[0]] + Split(s, sep)[1..]
  {
    assert ([c] + s)[1..] == s;
  }

  /** Splitting a part free of the separator, followed by more text, splits off exactly that part. */
  lemma {:induction false} SplitFront(p: string, t: string, sep: char)
    requires Free(p, sep)
    ensures Split(p + [sep] + t, sep) == [p] + Split(t, sep)
    decreases |p|
  {
    if p == [] {
      assert p + [sep] + t == [sep] + t;
      assert ([sep] + t)[1..] == t;
    } else {
      SplitFront(p[1..], t, sep);
      assert p + [sep] + t == [p[0]] + (p[1..] + [sep] + t);
      SplitCons(p[0], p[1..] + [sep] + t, sep);
      assert [p[0]] + p[1..] == p;
    }
  }

  lemma {:induction false} SplitFree(p: string, sep: char)
    requires Free(p, sep)
    ensures Split(p, sep) == [p]
    decreases |p|
  {
    if p != [] {
      SplitFree(p[1..], sep);
      assert [p[0]] + p[1..] == p;
    }
  }

  /** Round trip: splitting the join of separator-free parts gives the parts back. */
  lemma {:induction false} SplitJoin(parts: seq<string>, sep: char)
    requires |parts| >= 1
    requires forall k :: 0 <= k < |parts| ==> Free(parts[k], sep)
    ensures Split(Join(parts, sep), sep) == parts
    decreases |parts|
  {
    if |parts| == 1 {
      SplitFree(parts[0], sep);
    } else {
      SplitJoin(parts[1..], sep);
      SplitFront(parts[0], Join(parts[1..], sep), sep);
      assert [parts[0]] + parts[1..] == parts;
    }
  }

  predicate IsDigit(c: char)
  {
    '0' <= c <= '9'
  }

  function Digit(c: char): nat
  {
    if IsDigit(c) then c as int - '0' as int else 0
  }

  /** Value of a string of decimal digits, underscores skipped. */
  function DigitsValue(s: string): nat
    decreases |s|
  {
    if s == [] then 0
    else if s[|s| - 1] == '_' then DigitsValue(s[..|s| - 1])
    else DigitsValue(s[..|s| - 1]) * 10 + Digit(s[|s| - 1])
  }

  /** The ASCII whitespace `int()` ignores around a number: space, and tab through carriage return. */
  predicate IsSpace(c: char)
  {
    c == ' ' || '\t' <= c <= '\r'
  }

  /** `s.strip()` on ASCII whitespace. */
  function Trim(s: string): string
    decreases |s|
  {
    if |s| > 0 && IsSpace(s[0]) then Trim(s[1..])
    else if |s| > 0 && IsSpace(s[|s| - 1]) then Trim(s[..|s| - 1])
    else s
  }

  /** Trimming leaves no whitespace at either end, and leaves text without whitespace as it is. */
  lemma {:induction false} TrimSpec(s: string)
    ensures |Trim(s)| <= |s|
    ensures |Trim(s)| > 0 ==> !IsSpace(Trim(s)[0]) && !IsSpace(Trim(s)[|Trim(s)| - 1])
    ensures (forall i :: 0 <= i < |s| ==> !IsSpace(s[i])) ==> Trim(s) == s
    decreases |s|
  {
    if |s| > 0 && IsSpace(s[0]) {
      TrimSpec(s[1..]);
    } else if |s| > 0 && IsSpace(s[|s| - 1]) {
      TrimSpec(s[..|s| - 1]);
    }
  }

  /** The digit syntax `int()` accepts: decimal digits, a single `_` allowed between two digits. */
  predicate DigitGroups(d: string)
  {
    && |d| > 0 && IsDigit(d[0]) && IsDigit(d[|d| - 1])
    && (forall i :: 0 <= i < |d| ==> IsDigit(d[i]) || d[i] == '_')
    && (forall i :: 0 <= i < |d| - 1 && d[i] == '_' ==> IsDigit(d[i + 1]))
  }

  /** The same syntax read from the front: a digit, then an optional `_` and more groups. */
  predicate Groups(d: string)
    decreases |d|
  {
    && |d| > 0 && IsDigit(d[0])
    && (|d| == 1 || if d[1] == '_' then Groups(d[2..]) else Groups(d[1..]))
  }

  /** The scanner accepts exactly the digit syntax. */
  lemma {:induction false} GroupsSpec(d: string)
    ensures Groups(d) <==> DigitGroups(d)
    decreases |d|
  {
    if |d| >= 2 {
      if d[1] == '_' {
        var r := d[2..];
        GroupsSpec(r);
        assert forall i :: 2 <= i < |d| ==> d[i] == r[i - 2];
        if DigitGroups(d) {
          assert |d| >= 3 && IsDigit(d[2]);
          assert DigitGroups(r);
        }
      } else {
        var r := d[1..];
        GroupsSpec(r);
        assert forall i :: 1 <= i < |d| ==> d[i] == r[i - 1];
      }
    }
  }

  /**
   * Python's `int(s)` on text: surrounding whitespace, an optional sign, then
   * digit groups; `None` where Python raises `ValueError`.
   */
  function ParseInt(s: string): Option<int>
  {
    var t := Trim(s);
    if |t| > 0 && (t[0] == '-' || t[0] == '+') then
      var d := t[1..];
      var v: int := DigitsValue(d);
      if Groups(d) then Some(if t[0] == '-' then -v else v) else None
    else if Groups(t) then Some(DigitsValue(t))
    else None
  }

  /** Decimal digits of a natural number, most significant first. */
  function ShowNat(n: nat): (s: string)
    ensures |s| > 0 && forall i :: 0 <= i < |s| ==> IsDigit(s[i])
  {
    if n < 10 then ['0' + n as char] else ShowNat(n / 10) + ['0' + (n % 10) as char]
  }

  function ShowInt(i: int): string
  {
    if i < 0 then "-" + ShowNat(-i) else ShowNat(i)
  }

  lemma {:induction false} DigitsShowNat(n: nat)
    ensures DigitsValue(ShowNat(n)) == n
  {
    var s := ShowNat(n);
    if n >= 10 {
      DigitsShowNat(n / 10);
      assert s[..|s| - 1] == ShowNat(n / 10);
    }
  }

  /** Text without whitespace is its own trim. */
  lemma TrimNoSpace(s: string)
    requires forall k :: 0 <= k < |s| ==> !IsSpace(s[k])
    ensures Trim(s) == s
  {
    TrimSpec(s);
  }

  lemma ParseShowNat(n: nat)
    ensures ParseInt(ShowNat(n)) == Some(n)
  {
    var d := ShowNat(n);
    DigitsShowNat(n);
    GroupsSpec(d);
    TrimNoSpace(d);
  }

  lemma ParseShowNeg(n: nat)
    requires n > 0
    ensures ParseInt("-" + ShowNat(n)) == Some(-(n as int))
  {
    var d := ShowNat(n);
    DigitsShowNat(n);
    GroupsSpec(d);
    var s := "-" + d;
    assert s[0] == '-' && s[1..] == d;
    assert forall k :: 0 <= k < |s| ==> !IsSpace(s[k]) by {
      forall k | 0 <= k < |s| ensures !IsSpace(s[k]) {
        if k > 0 { assert s[k] == d[k - 1]; }
      }
    }
    TrimNoSpace(s);
  }

  /** Round trip: `int(str(i)) == i`. */
  lemma ParseShowInt(i: int)
    ensures ParseInt(ShowInt(i)) == Some(i)
  {
    if i < 0 {
      ParseShowNeg(-i);
    } else {
      ParseShowNat(i);
    }
  }

  /** `int()` accepts a sign, digit groups joined by single underscores, and leading zeros. */
  lemma ParseIntDigitGroups()
    ensures ParseInt("-1_000") == Some(-1000)
    ensures ParseInt("015") == Some(15)
  {
    var t := "-1_000";
    TrimNoSpace(t);
    var d := t[1..];
    assert d == "1_000";
    assert Groups(d) by {
      assert d[2..] == "000" && "000"[1..] == "00" && "00"[1..] == "0";
    }
    assert DigitsValue(d) == 1000 by {
      assert d[..4] == "1_00" && "1_00"[..3] == "1_0" && "1_0"[..2] == "1_" && "1_"[..1] == "1";
      assert DigitsValue("1") == 1;
      assert DigitsValue("1_") == 1;
      assert DigitsValue("1_0") == 10;
      assert DigitsValue("1_00") == 100;
    }
    var u := "015";
    TrimNoSpace(u);
    assert Groups(u) by {
      assert u[1..] == "15" && "15"[1..] == "5";
    }
    assert DigitsValue(u) == 15 by {
      assert u[..2] == "01" && "01"[..1] == "0";
    }
  }

  /** `int()` ignores whitespace around the number, and only there. */
  lemma ParseIntSpaces()
    ensures ParseInt(" 7\n") == Some(7)
    ensures ParseInt(" ") == None && ParseInt("- 1") == None
  {
  }

  /** `int()` rejects misplaced or doubled underscores and empty text. */
  lemma ParseIntRejects()
    ensures ParseInt("1__0") == None && ParseInt("_1") == None && ParseInt("1_") == None
    ensures ParseInt("") == None
  {
  }

  /**
   * The two participant ids embedded in a settlement video URL: fields 4 and 5
   * of `url.split('/')`; `None` where the source raises (too few fields, not an integer).
   */
  function TeamIdsFromUrl(url: string): Option<(int, int)>
  {
    var parts := Split(url, '/');
    if |parts| < 6 then None
    else match (ParseInt(parts[4]), ParseInt(parts[5]))
      case (Some(a), Some(b)) => Some((a, b))
      case _ => None
  }

  lemma ShowIntFree(n: int)
    ensures Free(ShowInt(n), '/')
  {
    var d := ShowNat(if n < 0 then -n else n);
    assert forall i :: 0 <= i < |d| ==> d[i] != '/';
    if n < 0 {
      assert ShowInt(n) == "-" + d;
    }
  }

  /** The path fields of such a URL are all free of '/'. */
  lemma UrlPartsFree(prefix: seq<string>, a: int, b: int, tail: seq<string>)
    requires |prefix| == 4
    requires forall k :: 0 <= k < |prefix| ==> Free(prefix[k], '/')
    requires forall k :: 0 <= k < |tail| ==> Free(tail[k], '/')
    ensures var parts := prefix + [ShowInt(a), ShowInt(b)] + tail;
      forall k :: 0 <= k < |parts| ==> Free(parts[k], '/')
  {
    var parts := prefix + [ShowInt(a), ShowInt(b)] + tail;
    forall k | 0 <= k < |parts| ensures Free(parts[k], '/') {
      if k < 4 {
        assert parts[k] == prefix[k];
      } else if k == 4 {
        ShowIntFree(a);
      } else if k == 5 {
        ShowIntFree(b);
      } else {
        assert parts[k] == tail[k - 6];
      }
    }
  }

  /** A URL built from four path fields, the two ids and a tail yields exactly those ids. */
  lemma UrlIdsRoundTrip(prefix: seq<string>, a: int, b: int, tail: seq<string>)
    requires |prefix| == 4
    requires forall k :: 0 <= k < |prefix| ==> Free(prefix[k], '/')
    requires forall k :: 0 <= k < |tail| ==> Free(tail[k], '/')
    ensures TeamIdsFromUrl(Join(prefix + [ShowInt(a), ShowInt(b)] + tail, '/')) == Some((a, b))
  {
    var parts := prefix + [ShowInt(a), ShowInt(b)] + tail;
    UrlPartsFree(prefix, a, b, tail);
    SplitJoin(parts, '/');
    assert Split(Join(parts, '/'), '/') == parts;
    assert parts[4] == ShowInt(a) && parts[5] == ShowInt(b);
    ParseShowInt(a);
    ParseShowInt(b);
  }

  // ---------------------------------------------------------------------------
  // Correct-score lookup

  /**
   * The correct-score market a won-market string names. The source intersects
   * the won strings with `str(15)` .. `str(42)`, so only those exact spellings
   * match ("015" or " 15" do not).
   */
  function CorrectScoreId(m: string): (r: Option<int>)
    ensures r.Some? ==> 15 <= r.value <= 42 && m == ShowInt(r.value)
  {
    if |m| == 2 && IsDigit(m[0]) && IsDigit(m[1]) then
      var v := (m[0] as int - '0' as int) * 10 + (m[1] as int - '0' as int);
      if 15 <= v <= 42 then
        assert ShowInt(v) == ShowNat(v / 10) + ['0' + (v % 10) as char];
        Some(v)
      else None
    else None
  }

  /** Every spelling `str(k)` of a correct-score market is recognised. */
  lemma CorrectScoreIdShow(k: int)
    requires 15 <= k <= 42
    ensures CorrectScoreId(ShowInt(k)) == Some(k)
  {
    assert ShowNat(k / 10) == ['0' + (k / 10) as char];
    assert ShowInt(k) == ShowNat(k / 10) + ['0' + (k % 10) as char];
  }

  /**
   * The correct-score market among the won markets. The source takes element 0
   * of a set intersection, whose order Python leaves unspecified; the model
   * takes the first such market in feed order.
   */
  function CorrectScoreMarket(won: seq<string>): (r: Option<int>)
    ensures r.Some? ==> 15 <= r.value <= 42 && ShowInt(r.value) in won
    ensures r.None? <==> forall i :: 0 <= i < |won| ==> CorrectScoreId(won[i]).None?
  {
    if won == [] then None
    else if CorrectScoreId(won[0]).Some? then CorrectScoreId(won[0])
    else CorrectScoreMarket(won[1..])
  }

  /** No correct-score market is found exactly when no `str(k)`, 15 <= k <= 42, was won. */
  lemma NoCorrectScore(won: seq<string>)
    ensures CorrectScoreMarket(won).None? <==> forall k :: 15 <= k <= 42 ==> ShowInt(k) !in won
  {
    if CorrectScoreMarket(won).None? {
      forall k | 15 <= k <= 42 ensures ShowInt(k) !in won {
        CorrectScoreIdShow(k);
      }
    }
  }

  /**
   * The final score of a settled event, looked up in the correct-score table
   * `markets` (keyed by the market's number); `None` where the source raises
   * (no such market won, unknown market).
   */
  function ScoreOf(won: seq<string>, markets: map<int, (int, int)>): (r: Option<(int, int)>)
    ensures r.Some? <==> exists m :: m in markets && CorrectScoreMarket(won) == Some(m)
    ensures r.Some? ==> r.value == markets[CorrectScoreMarket(won).value]
  {
    match CorrectScoreMarket(won)
    case None => None
    case Some(m) => if m in markets then Some(markets[m]) else None
  }

  /** `[int(_) for _ in won]`; `None` where some entry is not an integer. */
  function ParseAll(won: seq<string>): (r: Option<seq<int>>)
    ensures r.Some? <==> forall i :: 0 <= i < |won| ==> ParseInt(won[i]).Some?
    ensures r.Some? ==> |r.value| == |won| && forall i :: 0 <= i < |won| ==> ParseInt(won[i]) == Some(r.value[i])
  {
    if won == [] then Some([])
    else
      match (ParseAll(won[..|won| - 1]), ParseInt(won[|won| - 1]))
      case (Some(init), Some(v)) => Some(init + [v])
      case _ => None
  }

  /** What both settlement loops read from one `result` object. */
  datatype Settled = Settled(score: (int, int), won: seq<int>, handicap: Handicap)

  /**
   * One settlement as both loops read it; `None` where the source raises: no
   * `data` object, no `wonMarkets`, no known correct-score market won, or a
   * won id that is not an integer.
   */
  function Settle(r: Settlement, markets: map<int, (int, int)>): (st: Option<Settled>)
    ensures st.Some? <==>
      && r.data.Some? && r.wonMarkets.Some?
      && CorrectScoreMarket(r.wonMarkets.value).Some? && CorrectScoreMarket(r.wonMarkets.value).value in markets
      && forall i :: 0 <= i < |r.wonMarkets.value| ==> ParseInt(r.wonMarkets.value[i]).Some?
    ensures st.Some? ==>
      && st.value.score == markets[CorrectScoreMarket(r.wonMarkets.value).value]
      && |st.value.won| == |r.wonMarkets.value|
      && (forall i :: 0 <= i < |st.value.won| ==> ParseInt(r.wonMarkets.value[i]) == Some(st.value.won[i]))
      && st.value.handicap == r.data.value.handicap
  {
    if r.data.None? || r.wonMarkets.None? then None
    else
      var score := ScoreOf(r.wonMarkets.value, markets);
      var won := ParseAll(r.wonMarkets.value);
      if score.None? || won.None? then None else Some(Settled(score.value, won.value, r.data.value.handicap))
  }
}
