/** The small helpers every processor shares: string normalisers, the strict date parser
    and the per-batch lookup caches. */
module Helpers {
  import opened Wrappers
  import opened Text

  /** `firstNonEmpty`: the default for a blank string, otherwise the string as given (untrimmed). */
  function FirstNonEmpty(s: string, def: string): (r: string)
    ensures IsBlank(s) ==> r == def
    ensures !IsBlank(s) ==> r == s
  {
    TrimSpaceEmpty(s);
    if TrimSpace(s) == "" then def else s
  }

  /** `nullIfEmpty`: nil exactly for a blank string, else the trimmed string. */
  function NullIfEmpty(s: string): (r: Option<string>)
    ensures r.None? <==> IsBlank(s)
    ensures r.Some? ==> r.value == TrimSpace(s) && r.value != ""
  {
    TrimSpaceEmpty(s);
    var t := TrimSpace(s);
    if t == "" then None else Some(t)
  }

  /** `normalizeAmount`: "0" for a blank amount, otherwise the trimmed text with all spaces
      dropped and decimal commas turned into dots. */
  function NormalizeAmount(s: string): string {
    var t := TrimSpace(s);
    if t == "" then "0" else ReplaceChar(RemoveChar(t, ' '), ',', '.')
  }

  /** A blank amount reads "0"; any other is never empty and holds neither spaces nor
      commas. */
  lemma NormalizeAmountFacts(s: string)
    ensures IsBlank(s) ==> NormalizeAmount(s) == "0"
    ensures !IsBlank(s) ==> NormalizeAmount(s) == ReplaceChar(RemoveChar(TrimSpace(s), ' '), ',', '.')
    ensures NormalizeAmount(s) != ""
    ensures forall i :: 0 <= i < |NormalizeAmount(s)| ==> NormalizeAmount(s)[i] != ' ' && NormalizeAmount(s)[i] != ','
  {
    TrimSpaceEmpty(s);
    TrimSpaceFacts(s);
    var t := TrimSpace(s);
    if t != "" {
      RemoveCharKeepsEnds(t, ' ');
    }
  }

  /** Dropping a character other than the first and last keeps both ends in place. */
  lemma RemoveCharKeepsEnds(s: string, c: char)
    requires s != [] && s[0] != c && s[|s| - 1] != c
    ensures var r := RemoveChar(s, c); r != [] && r[0] == s[0] && r[|r| - 1] == s[|s| - 1]
  {
    RemoveCharLast(s, c);
  }

  lemma {:induction false} RemoveCharLast(s: string, c: char)
    requires s != [] && s[|s| - 1] != c
    ensures var r := RemoveChar(s, c); r != [] && r[|r| - 1] == s[|s| - 1]
  {
    if |s| > 1 {
      RemoveCharLast(s[1..], c);
    }
  }

  /** Removing a character that does not occur changes nothing. */
  lemma {:induction false} RemoveCharAbsent(s: string, c: char)
    requires forall i :: 0 <= i < |s| ==> s[i] != c
    ensures RemoveChar(s, c) == s
  {
    if s != [] {
      RemoveCharAbsent(s[1..], c);
      assert [s[0]] + s[1..] == s;
    }
  }

  /** Replacing a character that does not occur changes nothing. */
  lemma ReplaceCharAbsent(s: string, a: char, b: char)
    requires forall i :: 0 <= i < |s| ==> s[i] != a
    ensures ReplaceChar(s, a, b) == s
  {
  }

  /** A normalised amount is "0" exactly when the amount was blank or read "0" once trimmed. */
  lemma NormalizeAmountZero(s: string)
    ensures NormalizeAmount(s) == "0" <==> IsBlank(s) || TrimSpace(s) == "0"
  {
    TrimSpaceEmpty(s);
    TrimSpaceFacts(s);
    var t := TrimSpace(s);
    if t != "" && NormalizeAmount(s) == "0" {
      var u := RemoveChar(t, ' ');
      RemoveCharKeepsEnds(t, ' ');
      assert |u| == 1 && u[0] == t[0];
      assert |t| == 1 || t[|t| - 1] == '0';
      if |t| > 1 {
        RemoveCharLength(t, ' ');
      }
    }
    if t == "0" {
      assert RemoveChar(t, ' ') == "0";
    }
  }

  /** Removing characters leaves a string exactly as long as the number of kept ones;
      in particular two kept ends give at least two characters. */
  lemma {:induction false} RemoveCharLength(s: string, c: char)
    requires |s| > 1 && s[0] != c && s[|s| - 1] != c
    ensures |RemoveChar(s, c)| >= 2
  {
    RemoveCharLast(s[1..], c);
  }

  /** `normalizeAmount` is idempotent. */
  lemma NormalizeAmountIdempotent(s: string)
    ensures NormalizeAmount(NormalizeAmount(s)) == NormalizeAmount(s)
  {
    var r := NormalizeAmount(s);
    NormalizeAmountFacts(s);
    TrimSpaceEmpty(s);
    if !IsBlank(s) {
      var t := TrimSpace(s);
      TrimSpaceFacts(s);
      RemoveCharKeepsEnds(t, ' ');
      assert !IsSpace(r[0]) && !IsSpace(r[|r| - 1]);
    }
    TrimSpaceOfTrimmedEnds(r);
    TrimSpaceEmpty(r);
    RemoveCharAbsent(r, ' ');
    ReplaceCharAbsent(r, ',', '.');
  }

  /** A calendar instant, as `time.Time` holds it (the location is not modelled). */
  datatype DateTime = DateTime(year: int, month: int, day: int, hour: int, minute: int, second: int, nanos: int)

  /** Truncation to midnight of the same day. */
  function Midnight(t: DateTime): (r: DateTime)
    ensures r.year == t.year && r.month == t.month && r.day == t.day
    ensures r.hour == 0 && r.minute == 0 && r.second == 0 && r.nanos == 0
  {
    t.(hour := 0, minute := 0, second := 0, nanos := 0)
  }

  /** The layouts `parseDateStrict` tries, in order (Go reference-time notation). */
  const DateLayouts: seq<string> := [
    "2006-01-02",
    "02.01.2006",
    "2006/01/02",
    "2006-01-02T15:04:05Z07:00",
    "2006-01-02 15:04:05",
    "02.01.2006 15:04:05"]

  /** The first layout of `layouts` that `parse` accepts `s` with, and what it produced. */
  function FirstMatch(layouts: seq<string>, s: string, parse: (string, string) -> Option<DateTime>): Option<DateTime> {
    if layouts == [] then None
    else match parse(layouts[0], s)
      case Some(t) => Some(t)
      case None => FirstMatch(layouts[1..], s, parse)
  }

  /** No layout parses `s`, or the result is what the first layout that does produced. */
  lemma {:induction false} FirstMatchFacts(layouts: seq<string>, s: string, parse: (string, string) -> Option<DateTime>)
    ensures var r := FirstMatch(layouts, s, parse);
      (r.None? ==> forall i :: 0 <= i < |layouts| ==> parse(layouts[i], s).None?)
      && (r.Some? ==> exists i :: (0 <= i < |layouts| && parse(layouts[i], s) == r
            && forall j :: 0 <= j < i ==> parse(layouts[j], s).None?))
  {
    if layouts != [] && parse(layouts[0], s).None? {
      FirstMatchFacts(layouts[1..], s, parse);
      assert forall j :: 1 <= j < |layouts| ==> layouts[j] == layouts[1..][j - 1];
      var r := FirstMatch(layouts, s, parse);
      if r.Some? {
        var i :| 0 <= i < |layouts[1..]| && parse(layouts[1..][i], s) == r
          && forall j :: 0 <= j < i ==> parse(layouts[1..][j], s).None?;
        assert parse(layouts[i + 1], s) == r;
      }
    } else if layouts != [] {
      assert parse(layouts[0], s) == FirstMatch(layouts, s, parse);
    }
  }

  /** `parseDateStrict`: nil for a blank string; otherwise the first of `DateLayouts`
      that parses the trimmed string, truncated to midnight, or nil when none does.
      `parse` stands for `time.ParseInLocation`. */
  function ParseDateStrict(s: string, parse: (string, string) -> Option<DateTime>): (r: Option<DateTime>)
    ensures IsBlank(s) ==> r.None?
    ensures r.Some? ==> r.value.hour == 0 && r.value.minute == 0 && r.value.second == 0 && r.value.nanos == 0
    ensures !IsBlank(s) ==> r == (var m := FirstMatch(DateLayouts, TrimSpace(s), parse);
      if m.Some? then Some(Midnight(m.value)) else None)
  {
    TrimSpaceEmpty(s);
    var t := TrimSpace(s);
    if t == "" then None
    else match FirstMatch(DateLayouts, t, parse)
      case None => None
      case Some(d) => Some(Midnight(d))
  }

  /** The layouts `parseTimeLoose` tries in the local zone, in order. */
  const TimeLayouts: seq<string> := [
    "2006-01-02T15:04:05Z07:00",
    "2006-01-02 15:04:05",
    "02.01.2006 15:04:05",
    "02.01.2006",
    "2006-01-02"]

  /** RFC 1123 with a numeric zone, the last layout `parseTimeLoose` tries. */
  const RFC1123Z := "Mon, 02 Jan 2006 15:04:05 -0700"

  /** `parseTimeLoose`: nil for a blank string; otherwise what the first of `TimeLayouts`
      that parses the trimmed string produced (no truncation), else the RFC 1123 reading,
      else nil. `parse` stands for `time.ParseInLocation`, `parseUtc` for `time.Parse`. */
  function ParseTimeLoose(s: string, parse: (string, string) -> Option<DateTime>,
                          parseUtc: (string, string) -> Option<DateTime>): Option<DateTime> {
    var t := TrimSpace(s);
    if t == "" then None
    else match FirstMatch(TimeLayouts, t, parse)
      case Some(d) => Some(d)
      case None => parseUtc(RFC1123Z, t)
  }

  /** A blank string reads as nil; otherwise a layout earlier in the list always wins, and the
      RFC 1123 reading is taken only when no local layout parses the trimmed text. */
  lemma ParseTimeLooseFacts(s: string, parse: (string, string) -> Option<DateTime>,
                            parseUtc: (string, string) -> Option<DateTime>)
    ensures IsBlank(s) ==> ParseTimeLoose(s, parse, parseUtc).None?
    ensures var t := TrimSpace(s); var r := ParseTimeLoose(s, parse, parseUtc);
      !IsBlank(s) ==>
        ((forall i :: 0 <= i < |TimeLayouts| ==> parse(TimeLayouts[i], t).None?) ==> r == parseUtc(RFC1123Z, t))
        && (forall i :: (0 <= i < |TimeLayouts| && parse(TimeLayouts[i], t).Some?
                          && forall j :: 0 <= j < i ==> parse(TimeLayouts[j], t).None?) ==> r == parse(TimeLayouts[i], t))
  {
    TrimSpaceEmpty(s);
    var t := TrimSpace(s);
    FirstMatchFacts(TimeLayouts, t, parse);
  }

  /** What a cached lookup hands back: the value (nil for an absent or failed key), the
      error of a query made now, the cache after the call and whether a query was made. */
  datatype Cached<V> = Cached(value: Option<V>, err: Option<string>, cache: map<string, Option<V>>, queried: bool)

  /** `getDebtUUID`, `getUserBigint` and `getStatusBigint` (and the repos' own caches): a
      cached key answers from the cache with no error and no query; a miss queries once,
      caching the id on success and nil on ANY error. `answer` is what the query returns. */
  function CachedLookup<V>(cache: map<string, Option<V>>, key: string, answer: Result<V>): (r: Cached<V>)
    ensures key in cache ==> r.value == cache[key] && r.err.None? && r.cache == cache && !r.queried
    ensures key !in cache ==> (r.queried && key in r.cache && r.cache[key] == r.value
      && (forall k :: k in cache ==> k in r.cache && r.cache[k] == cache[k])
      && r.cache.Keys == cache.Keys + {key})
    ensures key !in cache && answer.Ok? ==> r.value == Some(answer.value) && r.err.None?
    ensures key !in cache && answer.Err? ==> r.value.None? && r.err == Some(answer.error)
  {
    if key in cache then Cached(cache[key], None, cache, false)
    else match answer
      case Ok(v) => Cached(Some(v), None, cache[key := Some(v)], true)
      case Err(e) => Cached(None, Some(e), cache[key := None], true)
  }

  /** After a failed lookup the key is a negative entry: asking again gives nil, no error
      and no query, whatever the database would now answer. */
  lemma NegativeEntrySticks<V>(cache: map<string, Option<V>>, key: string, answer: Result<V>, later: Result<V>)
    requires key !in cache && answer.Err?
    ensures var again := CachedLookup(CachedLookup(cache, key, answer).cache, key, later);
      again.value.None? && again.err.None? && !again.queried
  {
  }

  /** Each key is queried at most once: a second lookup of any key never queries. */
  lemma AtMostOneQuery<V>(cache: map<string, Option<V>>, key: string, a1: Result<V>, a2: Result<V>)
    ensures !CachedLookup(CachedLookup(cache, key, a1).cache, key, a2).queried
  {
  }

  /** `f` applied to every element, in order. */
  function Each<A, B>(f: A -> B, xs: seq<A>): (r: seq<B>)
    ensures |r| == |xs|
  {
    seq(|xs|, i requires 0 <= i < |xs| => f(xs[i]))
  }

  /** Concatenation regrouped, for the snapshots of a log that grows step by step. */
  lemma AppendAssoc<T>(a: seq<T>, b: seq<T>, c: seq<T>)
    ensures a + b + c == a + (b + c)
  {
  }

  lemma EachAppend<A, B>(f: A -> B, a: seq<A>, b: seq<A>)
    ensures Each(f, a + b) == Each(f, a) + Each(f, b)
  {
    var l, r := Each(f, a + b), Each(f, a) + Each(f, b);
    forall i | 0 <= i < |l|
      ensures l[i] == r[i]
    {
      if i < |a| {
        assert (a + b)[i] == a[i];
      } else {
        assert (a + b)[i] == b[i - |a|];
      }
    }
  }
}
