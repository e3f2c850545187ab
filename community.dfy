/**
 * The two pure helpers of the community page script: `escapeHtml`, which
 * makes user text safe to splice into HTML, and the relative-time labels
 * of `formatDate`, computed from the age of a post in milliseconds.
 */
module Community {
  import opened Wrappers
  import opened PyText

  /**
   * The JavaScript values `escapeHtml` can be handed. Numbers are
   * integers; an object or array carries the text its `String()`
   * conversion gives.
   */
  datatype JsValue =
    | Undefined
    | Null
    | Bool(b: bool)
    | Num(n: int)
    | Str(s: string)
    | Object(text: string)

  /** `!value` is false: objects are truthy whatever they convert to. */
  predicate Truthy(v: JsValue) {
    match v
    case Undefined => false
    case Null => false
    case Bool(b) => b
    case Num(n) => n != 0
    case Str(s) => s != ""
    case Object(_) => true
  }

  /** `String(value)`. */
  function ToJsString(v: JsValue): string {
    match v
    case Undefined => "undefined"
    case Null => "null"
    case Bool(b) => if b then "true" else "false"
    case Num(n) => if n < 0 then "-" + NatToString(-n) else NatToString(n)
    case Str(s) => s
    case Object(text) => text
  }

  /** The characters the escaping pattern `/[&<>"']/` matches. */
  predicate Special(c: char) {
    c == '&' || c == '<' || c == '>' || c == '"' || c == '\''
  }

  /** The replacement table: each special character's entity; any other character stands for itself. */
  function EscapeChar(c: char): (r: string)
    ensures |r| >= 1 && r[0] == (if Special(c) then '&' else c)
  {
    match c
    case '&' => "&amp;"
    case '<' => "&lt;"
    case '>' => "&gt;"
    case '"' => "&quot;"
    case '\'' => "&#039;"
    case _ => [c]
  }

  /** `text.replace(/[&<>"']/g, m => map[m])`: one left-to-right pass. */
  function Escape(s: string): string {
    if s == [] then [] else EscapeChar(s[0]) + Escape(s[1..])
  }

  /**
   * `escapeHtml(text)`: the empty string for a falsy value, otherwise
   * the escaped `String()` of it.
   */
  function EscapeHtml(v: JsValue): (r: string)
    ensures !Truthy(v) ==> r == ""
    ensures v.Str? ==> r == Escape(v.s)
    ensures Truthy(v) ==> r == Escape(ToJsString(v))
  {
    if !Truthy(v) then "" else Escape(ToJsString(v))
  }

  /** None of the characters that could open a tag or close an attribute. */
  predicate HtmlSafe(s: string) {
    forall i | 0 <= i < |s| :: s[i] != '<' && s[i] != '>' && s[i] != '"' && s[i] != '\''
  }

  lemma {:induction false} EscapeAppend(a: string, b: string)
    ensures Escape(a + b) == Escape(a) + Escape(b)
  {
    if a != [] {
      assert (a + b)[0] == a[0] && (a + b)[1..] == a[1..] + b;
      EscapeAppend(a[1..], b);
    } else {
      assert a + b == b;
    }
  }

  /** Escaped text holds no raw `<`, `>`, `"` or `'`. */
  lemma {:induction false} EscapeIsSafe(s: string)
    ensures HtmlSafe(Escape(s))
  {
    if s != [] {
      EscapeIsSafe(s[1..]);
      var head := EscapeChar(s[0]);
      assert HtmlSafe(head);
      var r := Escape(s);
      assert r == head + Escape(s[1..]);
      forall i | 0 <= i < |r|
        ensures r[i] != '<' && r[i] != '>' && r[i] != '"' && r[i] != '\''
      {
        if i >= |head| {
          assert r[i] == Escape(s[1..])[i - |head|];
        }
      }
    }
  }

  /** Whatever `escapeHtml` is given, its result is safe to place in HTML. */
  lemma EscapeHtmlIsSafe(v: JsValue)
    ensures HtmlSafe(EscapeHtml(v))
  {
    if Truthy(v) {
      EscapeIsSafe(ToJsString(v));
    }
  }

  /** Text without special characters comes through unchanged, and only such text does. */
  lemma {:induction false} EscapeUnchanged(s: string)
    ensures Escape(s) == s <==> forall i | 0 <= i < |s| :: !Special(s[i])
  {
    if s != [] {
      EscapeUnchanged(s[1..]);
      EscapeLength(s[1..]);
      var head := EscapeChar(s[0]);
      if Special(s[0]) {
        assert |head| > 1;
        assert |Escape(s)| > |s|;
      } else {
        assert Escape(s) == [s[0]] + Escape(s[1..]);
        assert s == [s[0]] + s[1..];
        assert (forall i | 0 <= i < |s| :: !Special(s[i]))
               <==> (forall i | 0 <= i < |s[1..]| :: !Special(s[1..][i])) by {
          forall i | 0 <= i < |s[1..]| ensures s[1..][i] == s[i + 1] {}
        }
      }
    }
  }

  /** Escaping never shortens the text. */
  lemma {:induction false} EscapeLength(s: string)
    ensures |Escape(s)| >= |s|
  {
    if s != [] {
      EscapeLength(s[1..]);
    }
  }

  /** The five entities `escapeHtml` produces, each turned back into its character. */
  function Unescape(t: string): string
    decreases |t|
  {
    if t == [] then []
    else if StartsWith(t, "&amp;") then "&" + Unescape(t[5..])
    else if StartsWith(t, "&lt;") then "<" + Unescape(t[4..])
    else if StartsWith(t, "&gt;") then ">" + Unescape(t[4..])
    else if StartsWith(t, "&quot;") then "\"" + Unescape(t[6..])
    else if StartsWith(t, "&#039;") then "'" + Unescape(t[6..])
    else [t[0]] + Unescape(t[1..])
  }

  /** The entity of one character is read back as that character, whatever follows it. */
  lemma UnescapeChar(c: char, rest: string)
    ensures Unescape(EscapeChar(c) + rest) == [c] + Unescape(rest)
  {
    var e := EscapeChar(c);
    var t := e + rest;
    assert t[..|e|] == e;
    assert t[|e|..] == rest;
    if !Special(c) {
      assert t[0] == c && t[0] != '&';
      assert !StartsWith(t, "&amp;") && !StartsWith(t, "&lt;") && !StartsWith(t, "&gt;");
      assert !StartsWith(t, "&quot;") && !StartsWith(t, "&#039;");
    } else if c == '<' {
      assert !StartsWith(t, "&amp;") by { assert t[1] == 'l'; }
    } else if c == '>' {
      assert !StartsWith(t, "&amp;") by { assert t[1] == 'g'; }
      assert !StartsWith(t, "&lt;") by { assert t[1] == 'g'; }
    } else if c == '"' {
      assert !StartsWith(t, "&amp;") by { assert t[1] == 'q'; }
      assert !StartsWith(t, "&lt;") by { assert t[1] == 'q'; }
      assert !StartsWith(t, "&gt;") by { assert t[1] == 'q'; }
    } else if c == '\'' {
      assert !StartsWith(t, "&amp;") by { assert t[1] == '#'; }
      assert !StartsWith(t, "&lt;") by { assert t[1] == '#'; }
      assert !StartsWith(t, "&gt;") by { assert t[1] == '#'; }
      assert !StartsWith(t, "&quot;") by { assert t[1] == '#'; }
    }
  }

  /** Decoding the entities gives back exactly the text that was escaped. */
  lemma {:induction false} UnescapeEscape(s: string)
    ensures Unescape(Escape(s)) == s
  {
    if s != [] {
      UnescapeChar(s[0], Escape(s[1..]));
      UnescapeEscape(s[1..]);
      assert [s[0]] + s[1..] == s;
    }
  }

  /** Escaping is one-to-one: different texts never escape to the same HTML. */
  lemma EscapeInjective(a: string, b: string)
    requires Escape(a) == Escape(b)
    ensures a == b
  {
    UnescapeEscape(a);
    UnescapeEscape(b);
  }

  const MinuteMs: int := 60000
  const HourMs: int := 3600000
  const DayMs: int := 86400000

  /**
   * `Math.floor(diff / unit)` for a positive unit. Dafny's `/` rounds
   * toward negative infinity when the divisor is positive, as `floor` does.
   */
  function Floor(diff: int, unit: int): (q: int)
    requires unit > 0
    ensures q * unit <= diff < (q + 1) * unit
  {
    diff / unit
  }

  /** How `formatDate` labels an age; `Older` falls back to the locale date. */
  datatype Age = JustNow | MinutesAgo(minutes: int) | HoursAgo(hours: int) | DaysAgo(days: int) | Older

  /**
   * The bucketing of `formatDate` for `diff = now - date` in milliseconds:
   * less than a minute (a future date included) is "just now", then whole
   * minutes below an hour, whole hours below a day, whole days below a week.
   */
  function Bucket(diff: int): (a: Age)
    ensures a == JustNow <==> diff < MinuteMs
    ensures a.MinutesAgo? <==> MinuteMs <= diff < HourMs
    ensures a.HoursAgo? <==> HourMs <= diff < DayMs
    ensures a.DaysAgo? <==> DayMs <= diff < 7 * DayMs
    ensures a == Older <==> diff >= 7 * DayMs
    ensures a.MinutesAgo? ==> 1 <= a.minutes < 60 && a.minutes * MinuteMs <= diff < (a.minutes + 1) * MinuteMs
    ensures a.HoursAgo? ==> 1 <= a.hours < 24 && a.hours * HourMs <= diff < (a.hours + 1) * HourMs
    ensures a.DaysAgo? ==> 1 <= a.days < 7 && a.days * DayMs <= diff < (a.days + 1) * DayMs
  {
    var minutes := Floor(diff, MinuteMs);
    var hours := Floor(diff, HourMs);
    var days := Floor(diff, DayMs);
    if minutes < 1 then JustNow
    else if minutes < 60 then MinutesAgo(minutes)
    else if hours < 24 then HoursAgo(hours)
    else if days < 7 then DaysAgo(days)
    else Older
  }

  /** The label shown for a bucket; None where the page shows the locale date instead. */
  function Label(a: Age): Option<string> {
    match a
    case JustNow => Some("방금 전")
    case MinutesAgo(m) => Some(NatToString(if m < 0 then 0 else m) + "분 전")
    case HoursAgo(h) => Some(NatToString(if h < 0 then 0 else h) + "시간 전")
    case DaysAgo(d) => Some(NatToString(if d < 0 then 0 else d) + "일 전")
    case Older => None
  }

  /** The text `formatDate` returns for an age of `diff` milliseconds, up to a week. */
  function RelativeTime(diff: int): (r: Option<string>)
    ensures r.None? <==> diff >= 7 * DayMs
    ensures diff < MinuteMs ==> r == Some("방금 전")
    ensures MinuteMs <= diff < HourMs ==> r == Some(NatToString(diff / MinuteMs) + "분 전")
    ensures HourMs <= diff < DayMs ==> r == Some(NatToString(diff / HourMs) + "시간 전")
    ensures DayMs <= diff < 7 * DayMs ==> r == Some(NatToString(diff / DayMs) + "일 전")
  {
    Label(Bucket(diff))
  }

  /** An older post never gets a label of a smaller unit: the buckets follow the age. */
  lemma BucketMonotone(d1: int, d2: int)
    requires d1 <= d2
    ensures Rank(Bucket(d1)) <= Rank(Bucket(d2))
  {
  }

  /** The order of the buckets, from the most recent to the oldest. */
  function Rank(a: Age): nat {
    match a
    case JustNow => 0
    case MinutesAgo(_) => 1
    case HoursAgo(_) => 2
    case DaysAgo(_) => 3
    case Older => 4
  }

  /** Within one bucket the count grows with the age. */
  lemma BucketCountMonotone(d1: int, d2: int)
    requires d1 <= d2 && Rank(Bucket(d1)) == Rank(Bucket(d2))
    ensures Bucket(d1).MinutesAgo? ==> Bucket(d1).minutes <= Bucket(d2).minutes
    ensures Bucket(d1).HoursAgo? ==> Bucket(d1).hours <= Bucket(d2).hours
    ensures Bucket(d1).DaysAgo? ==> Bucket(d1).days <= Bucket(d2).days
  {
    FloorMonotone(d1, d2, MinuteMs);
    FloorMonotone(d1, d2, HourMs);
    FloorMonotone(d1, d2, DayMs);
  }

  lemma FloorMonotone(d1: int, d2: int, unit: int)
    requires d1 <= d2 && unit > 0
    ensures Floor(d1, unit) <= Floor(d2, unit)
  {
  }
}
