/**
 * The display helpers of lib/utils.ts: playtime and number formatting, and the
 * rank label and rank colour lookups.
 */
module Utils {
  import opened Wrappers
  import opened JsText

  // ---------------------------------------------------------------------------
  // formatPlaytime
  // ---------------------------------------------------------------------------

  const MillisPerHour: int := 1000 * 60 * 60
  const MillisPerDay: int := 24 * MillisPerHour

  /**
   * `formatPlaytime(ms)`: whole hours `h = floor(ms / 3600000)`, shown as
   * `"<h>h"` below one day and as `"<d>d <h mod 24>h"` from one day up.
   * Dafny's `/` with a positive divisor is the floor, as `Math.floor` is.
   */
  function FormatPlaytime(milliseconds: int): (text: string)
    ensures ParsePlaytime(text) == Some(milliseconds / MillisPerHour)
  {
    FormatHours(milliseconds / MillisPerHour)
  }

  /**
   * The text for a whole number of hours: days and the remaining hours once
   * there is a day. Reading it back gives the hours it was made from.
   */
  function FormatHours(hours: int): (text: string)
    ensures ParsePlaytime(text) == Some(hours)
  {
    var days := hours / 24;
    if days > 0 then
      ParseDaysText(days, hours % 24, hours);
      IntToString(days) + "d " + IntToString(hours % 24) + "h"
    else
      ParseHoursText(hours);
      IntToString(hours) + "h"
  }

  /** Reads a playtime text back into its whole number of hours. */
  function ParsePlaytime(text: string): Option<int>
  {
    if |text| == 0 || text[|text| - 1] != 'h' then None
    else
      var body := text[..|text| - 1];
      match IndexOf(body, "d ")
      case None => ParseInt(body)
      case Some(k) => DaysAndHours(ParseInt(body[..k]), ParseInt(body[k + 2..]))
  }

  function DaysAndHours(days: Option<int>, hours: Option<int>): Option<int>
  {
    if days.Some? && hours.Some? then Some(days.value * 24 + hours.value) else None
  }

  /** Text without a day part is read as hours. */
  lemma ParseHoursOnly(body: string)
    requires IndexOf(body, "d ") == None
    ensures ParsePlaytime(body + "h") == ParseInt(body)
  {
    assert (body + "h")[..|body|] == body;
  }

  /** Text with a day part is read as days and hours around its first `d `. */
  lemma ParseDaysAndHours(a: string, b: string)
    requires IndexOf(a + "d " + b, "d ") == Some(|a|)
    ensures ParsePlaytime(a + "d " + b + "h") == DaysAndHours(ParseInt(a), ParseInt(b))
  {
    var body := a + "d " + b;
    assert (body + "h")[..|body|] == body;
    assert body[..|a|] == a;
    assert body[|a| + 2..] == b;
  }

  /** Below one day only the hours are shown, and they are fewer than 24. */
  lemma PlaytimeUnderADay(milliseconds: int)
    requires milliseconds < MillisPerDay
    ensures milliseconds / MillisPerHour < 24
    ensures FormatPlaytime(milliseconds) == IntToString(milliseconds / MillisPerHour) + "h"
  {
    var hours := milliseconds / MillisPerHour;
    UnderADayHours(milliseconds, hours);
    assert hours / 24 <= 0;
  }

  lemma UnderADayHours(milliseconds: int, hours: int)
    requires milliseconds < MillisPerDay && hours == milliseconds / MillisPerHour
    ensures hours < 24
  {
  }

  /** From one day up, the text is `"<d>d <r>h"` with `d > 0`, `r < 24` and `24 d + r` the hours. */
  lemma PlaytimeFromADay(milliseconds: int)
    requires milliseconds >= MillisPerDay
    ensures var hours := milliseconds / MillisPerHour;
      var d, r := hours / 24, hours % 24;
      && d > 0 && 0 <= r < 24 && d * 24 + r == hours
      && FormatPlaytime(milliseconds) == IntToString(d) + "d " + IntToString(r) + "h"
  {
  }

  lemma NoDaySeparator(s: string)
    requires NumberChars(s)
    ensures IndexOf(s, "d ") == None
  {
    forall j | 0 <= j <= |s|
      ensures !OccursAt(s, "d ", j)
    {
      if j + 2 <= |s| {
        assert s[j..j + 2][0] == s[j];
      }
    }
  }

  lemma ParseHoursText(h: int)
    ensures ParsePlaytime(IntToString(h) + "h") == Some(h)
  {
    NoDaySeparator(IntToString(h));
    ParseHoursOnly(IntToString(h));
    ParseIntToString(h);
  }

  lemma DaysAndHoursOf(x: int, y: int, total: int)
    requires total == x * 24 + y
    ensures DaysAndHours(Some(x), Some(y)) == Some(total)
  {
  }

  /** The text of a number never contains the `d` of the day separator. */
  lemma NumberTextHasNoD(s: string)
    requires NumberChars(s)
    ensures forall i :: 0 <= i < |s| ==> s[i] != "d "[0]
  {
  }

  lemma ParseDaysText(days: int, rest: int, total: int)
    requires total == days * 24 + rest
    ensures ParsePlaytime(IntToString(days) + "d " + IntToString(rest) + "h") == Some(total)
  {
    NumberTextHasNoD(IntToString(days));
    IndexOfAfterPrefix(IntToString(days), "d ", IntToString(rest));
    ParseIntToString(days);
    ParseIntToString(rest);
    ParseDaysAndHours(IntToString(days), IntToString(rest));
    DaysAndHoursOf(days, rest, total);
  }

  /** Whole days and the hours left over determine the quotient and remainder by 24. */
  lemma DaysOfHours(hours: int, d: int, r: int)
    requires hours == d * 24 + r && 0 <= r < 24
    ensures hours / 24 == d && hours % 24 == r
  {
  }

  lemma FormatDaysOf(hours: int, d: int, r: int)
    requires hours == d * 24 + r && d > 0 && 0 <= r < 24
    ensures FormatHours(hours) == IntToString(d) + "d " + IntToString(r) + "h"
  {
    DaysOfHours(hours, d, r);
  }

  // ---------------------------------------------------------------------------
  // formatNumber
  // ---------------------------------------------------------------------------

  /**
   * `(n / unit).toFixed(1)` for `n >= unit`, in exact arithmetic: `n / unit`
   * rounded half up to one decimal place.
   */
  function OneDecimal(n: int, unit: int): string
    requires unit >= 10 && n >= unit
  {
    var tenths := (n * 10 + unit / 2) / unit;
    IntToString(tenths / 10) + "." + [DigitChar(tenths % 10)]
  }

  /**
   * `formatNumber(num)` on an integer; `None` is `null`, `undefined` or NaN.
   * Millions get an `M`, thousands a `K`, anything below 1000 (negative numbers
   * included) its plain decimal text.
   */
  function FormatNumber(num: Option<int>): (text: string)
    ensures num.None? ==> text == "0"
    ensures EndsWithChar(text, 'M') <==> num.Some? && num.value >= 1000000
    ensures EndsWithChar(text, 'K') <==> num.Some? && 1000 <= num.value < 1000000
  {
    match num
    case None => "0"
    case Some(n) =>
      if n >= 1000000 then OneDecimal(n, 1000000) + "M"
      else if n >= 1000 then OneDecimal(n, 1000) + "K"
      else IntToString(n)
  }

  predicate EndsWithChar(s: string, c: char) { |s| > 0 && s[|s| - 1] == c }

  /** A missing or NaN number shows as `"0"`; an integer below 1000 shows as text that reads back to it. */
  lemma FormatNumberPlain(num: Option<int>)
    ensures num.None? ==> FormatNumber(num) == "0"
    ensures num.Some? && num.value < 1000 ==> ParseInt(FormatNumber(num)) == num
  {
    if num.Some? && num.value < 1000 {
      ParseIntToString(num.value);
    }
  }

  // ---------------------------------------------------------------------------
  // formatRank and getRankColor
  // ---------------------------------------------------------------------------

  /** `s.replace(/[\[\]]/g, '')`: every `[` and `]` removed. */
  function StripBrackets(s: string): (t: string)
    ensures |t| <= |s|
    ensures forall i :: 0 <= i < |t| ==> t[i] != '[' && t[i] != ']'
    ensures forall c :: c != '[' && c != ']' ==> multiset(t)[c] == multiset(s)[c]
  {
    if |s| == 0 then ""
    else
      var rest := StripBrackets(s[1..]);
      assert multiset(s) == multiset([s[0]]) + multiset(s[1..]) by {
        assert s == [s[0]] + s[1..];
      }
      if s[0] == '[' || s[0] == ']' then rest else [s[0]] + rest
  }

  /** The cleaning both lookups share: lower-case, drop brackets, read `default` as `member`. */
  function NormalizeRank(rankValue: string): (key: string)
    ensures key != "default"
    ensures forall i :: 0 <= i < |key| ==> key[i] != '[' && key[i] != ']'
  {
    var clean := StripBrackets(ToLower(rankValue));
    if clean == "default" then "member" else clean
  }

  const RankLabels: map<string, string> := map[
    "admin" := "[Admin]",
    "moderator" := "[Moderator]",
    "helper" := "[Helper]",
    "trusted" := "[Trusted]",
    "donatorplus" := "[Donator+]",
    "donator" := "[Donator]",
    "friend" := "[Friend]",
    "member" := "[Member]"
  ]

  const RankColors: map<string, string> := map[
    "admin" := "#FF5555",
    "moderator" := "#FFAA00",
    "helper" := "#5555FF",
    "trusted" := "#FF55FF",
    "donatorplus" := "#55FF55",
    "donator" := "#55FF55",
    "friend" := "#FFFF55",
    "member" := "#55FFFF"
  ]

  /** `!rankValue`: undefined or the empty string. */
  predicate Absent(rankValue: Option<string>) { rankValue.None? || rankValue.value == "" }

  /** The label for a cleaned rank: the table's own entry, `[Member]` for anything else. */
  function RankLabelOf(key: string): (rankLabel: string)
    ensures rankLabel in RankLabels.Values
    ensures rankLabel == "[Member]" <==> key !in RankLabels || key == "member"
  {
    assert RankLabels["member"] == "[Member]";
    if key in RankLabels then RankLabels[key] else "[Member]"
  }

  /** The colour for a cleaned rank: the table's own entry, aqua `#55FFFF` for anything else. */
  function RankColorOf(key: string): (color: string)
    ensures color in RankColors.Values
    ensures color == "#55FFFF" <==> key !in RankColors || key == "member"
  {
    assert RankColors["member"] == "#55FFFF";
    if key in RankColors then RankColors[key] else "#55FFFF"
  }

  /** `formatRank(rankValue)`, with the table read through its own entries only. */
  function FormatRank(rankValue: Option<string>): (rankLabel: string)
    ensures rankLabel in RankLabels.Values
    ensures Absent(rankValue) ==> rankLabel == "[Member]"
  {
    if Absent(rankValue) then RankLabelOf("member") else RankLabelOf(NormalizeRank(rankValue.value))
  }

  /** `getRankColor(rankValue)`, with the table read through its own entries only. */
  function GetRankColor(rankValue: Option<string>): (color: string)
    ensures color in RankColors.Values
    ensures Absent(rankValue) ==> color == "#55FFFF"
  {
    if Absent(rankValue) then RankColorOf("member") else RankColorOf(NormalizeRank(rankValue.value))
  }

  lemma {:induction false} LowerKeepsBrackets(s: string)
    ensures StripBrackets(ToLower(StripBrackets(s))) == StripBrackets(ToLower(s))
    decreases |s|
  {
    if |s| > 0 {
      var head := if s[0] == '[' || s[0] == ']' then "" else [s[0]];
      var tail := StripBrackets(s[1..]);
      assert StripBrackets(s) == head + tail;
      ToLowerAppend(head, tail);
      ToLowerAppend([s[0]], s[1..]);
      assert [s[0]] + s[1..] == s;
      StripBracketsAppend(ToLower(head), ToLower(tail));
      StripBracketsAppend(ToLower([s[0]]), ToLower(s[1..]));
      LowerHead(s[0], head);
      LowerKeepsBrackets(s[1..]);
    }
  }

  lemma ToLowerAppend(a: string, b: string)
    ensures ToLower(a + b) == ToLower(a) + ToLower(b)
  {
  }

  /** Lower-casing one character keeps it a bracket exactly when it was one. */
  lemma LowerHead(c: char, head: string)
    requires head == if c == '[' || c == ']' then "" else [c]
    ensures StripBrackets(ToLower(head)) == StripBrackets(ToLower([c]))
  {
    var l := ToLower([c]);
    assert l == [LowerChar(c)];
    assert StripBrackets(l) == (if LowerChar(c) == '[' || LowerChar(c) == ']' then "" else [LowerChar(c)]) + StripBrackets(l[1..]);
  }

  lemma {:induction false} StripBracketsAppend(a: string, b: string)
    ensures StripBrackets(a + b) == StripBrackets(a) + StripBrackets(b)
    decreases |a|
  {
    if |a| == 0 {
      assert a + b == b;
    } else {
      assert (a + b)[1..] == a[1..] + b;
      StripBracketsAppend(a[1..], b);
    }
  }

  /** Rank cleaning ignores letter case and brackets, and reads `default` as `member`. */
  lemma NormalizeRankInvariance(s: string)
    ensures NormalizeRank(ToLower(s)) == NormalizeRank(s)
    ensures NormalizeRank(StripBrackets(s)) == NormalizeRank(s)
    ensures NormalizeRank(s) != "default"
  {
    ToLowerIdempotent(s);
    LowerKeepsBrackets(s);
  }

  lemma StripBracketsEmpty(s: string)
    requires StripBrackets(s) == ""
    ensures NormalizeRank(s) == ""
  {
    LowerKeepsBrackets(s);
  }

  /** Whatever the raw value, the cleaned key both lookups use is unchanged by lower-casing and stripping brackets. */
  lemma CleanedKeyInvariance(s: string)
    ensures !Absent(Some(s)) ==> !Absent(Some(ToLower(s)))
    ensures !Absent(Some(s)) && !Absent(Some(StripBrackets(s))) ==>
      NormalizeRank(StripBrackets(s)) == NormalizeRank(s)
    ensures !Absent(Some(s)) && Absent(Some(StripBrackets(s))) ==> NormalizeRank(s) == ""
  {
    NormalizeRankInvariance(s);
    if StripBrackets(s) == "" {
      StripBracketsEmpty(s);
    }
  }

  /** `formatRank` is insensitive to case and to brackets. */
  lemma FormatRankInvariance(s: string)
    ensures FormatRank(Some(ToLower(s))) == FormatRank(Some(s))
    ensures FormatRank(Some(StripBrackets(s))) == FormatRank(Some(s))
  {
    NormalizeRankInvariance(s);
    CleanedKeyInvariance(s);
    assert "" !in RankLabels;
  }

  /** `getRankColor` is insensitive to case and to brackets. */
  lemma GetRankColorInvariance(s: string)
    ensures GetRankColor(Some(ToLower(s))) == GetRankColor(Some(s))
    ensures GetRankColor(Some(StripBrackets(s))) == GetRankColor(Some(s))
  {
    NormalizeRankInvariance(s);
    CleanedKeyInvariance(s);
    assert "" !in RankColors;
  }

  /** The two lookups agree on what a plain member is. */
  lemma MemberLabelIffMemberColor(rankValue: Option<string>)
    ensures FormatRank(rankValue) == "[Member]" <==> GetRankColor(rankValue) == "#55FFFF"
  {
    assert RankLabels.Keys == RankColors.Keys;
  }

  /** Lower-case letters and underscores only, as the keys of both tables are. */
  predicate PlainKey(s: string) { forall i :: 0 <= i < |s| ==> 'a' <= s[i] <= 'z' || s[i] == '_' }

  /** A plain key cleans to itself, except that `default` becomes `member`. */
  lemma PlainRankText(s: string)
    requires PlainKey(s)
    ensures NormalizeRank(s) == (if s == "default" then "member" else s)
  {
    assert ToLower(s) == s;
    StripBracketsPlain(s);
  }

  lemma StripBracketsPlain(s: string)
    requires forall i :: 0 <= i < |s| ==> s[i] != '[' && s[i] != ']'
    ensures StripBrackets(s) == s
  {
    if |s| > 0 {
      StripBracketsPlain(s[1..]);
    }
  }

  lemma LowerBracketedAdmin()
    ensures ToLower("[ADMIN]") == "[admin]"
  {
    var lowered := ToLower("[ADMIN]");
    assert |lowered| == 7;
    assert lowered[1] == 'a' && lowered[2] == 'd' && lowered[3] == 'm';
    assert lowered[4] == 'i' && lowered[5] == 'n';
  }

  lemma StripBracketedAdmin()
    ensures StripBrackets("[admin]") == "admin"
  {
    assert "[admin]" == "[" + "admin" + "]";
    StripBracketsAppend("[" + "admin", "]");
    StripBracketsAppend("[", "admin");
    StripBracketsPlain("admin");
  }

  /** `[ADMIN]` cleans to the key `admin`. */
  lemma BracketedAdminKey()
    ensures NormalizeRank("[ADMIN]") == "admin"
  {
    LowerBracketedAdmin();
    StripBracketedAdmin();
  }

  /** `formatRank` depends only on the cleaned key of a present value. */
  lemma FormatRankByKey(rankValue: string, key: string)
    requires rankValue != "" && NormalizeRank(rankValue) == key
    ensures FormatRank(Some(rankValue)) == RankLabelOf(key)
  {
  }

  /** `getRankColor` depends only on the cleaned key of a present value. */
  lemma GetRankColorByKey(rankValue: string, key: string)
    requires rankValue != "" && NormalizeRank(rankValue) == key
    ensures GetRankColor(Some(rankValue)) == RankColorOf(key)
  {
  }

  lemma AdminKey()
    ensures NormalizeRank("admin") == "admin"
  {
    assert PlainKey("admin");
    PlainRankText("admin");
  }

  lemma AdminLabel()
    ensures RankLabelOf("admin") == "[Admin]"
  {
  }

  /** Example: `[ADMIN]` and `admin` both give `[Admin]`. */
  lemma AdminExample()
    ensures FormatRank(Some("[ADMIN]")) == "[Admin]" == FormatRank(Some("admin"))
  {
    BracketedAdminKey();
    AdminKey();
    FormatRankByKey("[ADMIN]", "admin");
    FormatRankByKey("admin", "admin");
    AdminLabel();
  }

  lemma DefaultKey()
    ensures NormalizeRank("default") == "member"
  {
    assert PlainKey("default");
    PlainRankText("default");
  }

  lemma MemberKey()
    ensures NormalizeRank("member") == "member"
  {
    assert PlainKey("member");
    PlainRankText("member");
  }

  /** Example: `default` gives the same label as `member`. */
  lemma DefaultExample()
    ensures FormatRank(Some("default")) == "[Member]" == FormatRank(Some("member"))
  {
    DefaultKey();
    MemberKey();
    FormatRankByKey("default", "member");
    FormatRankByKey("member", "member");
    assert RankLabelOf("member") == "[Member]";
  }

  lemma DonatorKey()
    ensures NormalizeRank("donator") == "donator"
  {
    assert PlainKey("donator");
    PlainRankText("donator");
  }

  lemma DonatorPlusKey()
    ensures NormalizeRank("donatorplus") == "donatorplus"
  {
    assert PlainKey("donatorplus");
    PlainRankText("donatorplus");
  }

  lemma DonatorColors()
    ensures RankColorOf("donator") == "#55FF55" && RankColorOf("donatorplus") == "#55FF55"
  {
  }

  /** Example: `donator` and `donatorplus` share green. */
  lemma DonatorExample()
    ensures GetRankColor(Some("donator")) == "#55FF55" == GetRankColor(Some("donatorplus"))
  {
    DonatorKey();
    DonatorPlusKey();
    GetRankColorByKey("donator", "donator");
    GetRankColorByKey("donatorplus", "donatorplus");
    DonatorColors();
  }

  // ---------------------------------------------------------------------------
  // The lookups as written: a JavaScript object literal also answers for the
  // members it inherits from Object.prototype.
  // ---------------------------------------------------------------------------

  /** What reading a property of an object literal can give. */
  datatype JsValue = Undefined | Str(s: string) | InheritedMember(name: string)

  /** The properties every object literal inherits from `Object.prototype`. */
  const ObjectPrototypeMembers: set<string> := {
    "constructor", "__proto__", "__defineGetter__", "__defineSetter__",
    "__lookupGetter__", "__lookupSetter__", "hasOwnProperty", "isPrototypeOf",
    "propertyIsEnumerable", "toLocaleString", "toString", "valueOf"
  }

  /** `literal[key]` on an object literal with the entries of `literal`. */
  function PropertyOf(literal: map<string, string>, key: string): JsValue
  {
    if key in literal then Str(literal[key])
    else if key in ObjectPrototypeMembers then InheritedMember(key)
    else Undefined
  }

  predicate Truthy(v: JsValue)
  {
    match v
    case Undefined => false
    case Str(s) => s != ""
    case InheritedMember(_) => true
  }

  /** `v || fallback`. */
  function OrElse(v: JsValue, fallback: string): JsValue
  {
    if Truthy(v) then v else Str(fallback)
  }

  /** `formatRank` exactly as written: `rankMap[cleanRank] || '[Member]'`. */
  function FormatRankAsWritten(rankValue: Option<string>): (v: JsValue)
    ensures Absent(rankValue) ==> v == Str("[Member]")
    ensures v.Str? ==> v.s in RankLabels.Values
    ensures !v.Undefined?
    ensures v.InheritedMember? ==> v.name in ObjectPrototypeMembers && v.name !in RankLabels
  {
    assert RankLabels["member"] == "[Member]";
    if Absent(rankValue) then Str("[Member]")
    else OrElse(PropertyOf(RankLabels, NormalizeRank(rankValue.value)), "[Member]")
  }

  /** `getRankColor` exactly as written: `colorMap[cleanRank] || '#55FFFF'`. */
  function GetRankColorAsWritten(rankValue: Option<string>): (v: JsValue)
    ensures Absent(rankValue) ==> v == Str("#55FFFF")
    ensures v.Str? ==> v.s in RankColors.Values
    ensures !v.Undefined?
    ensures v.InheritedMember? ==> v.name in ObjectPrototypeMembers && v.name !in RankColors
  {
    assert RankColors["member"] == "#55FFFF";
    if Absent(rankValue) then Str("#55FFFF")
    else OrElse(PropertyOf(RankColors, NormalizeRank(rankValue.value)), "#55FFFF")
  }

  /**
   * A cleaned key that neither table has but that every object inherits is
   * answered by the inherited member, which is truthy.
   */
  lemma AsWrittenInherited(rankValue: string, key: string)
    requires rankValue != "" && NormalizeRank(rankValue) == key
    requires key !in RankLabels && key !in RankColors && key in ObjectPrototypeMembers
    ensures FormatRankAsWritten(Some(rankValue)) == InheritedMember(key)
    ensures GetRankColorAsWritten(Some(rankValue)) == InheritedMember(key)
  {
  }

  lemma ConstructorKey()
    ensures NormalizeRank("constructor") == "constructor"
  {
    assert PlainKey("constructor");
    PlainRankText("constructor");
  }

  lemma ProtoKey()
    ensures NormalizeRank("__proto__") == "__proto__"
  {
    assert PlainKey("__proto__");
    PlainRankText("__proto__");
  }

  lemma InheritedKeysNotInTables()
    ensures "constructor" !in RankLabels && "constructor" !in RankColors && "constructor" in ObjectPrototypeMembers
    ensures "__proto__" !in RankLabels && "__proto__" !in RankColors && "__proto__" in ObjectPrototypeMembers
  {
  }

  /**
   * The rank `constructor` reaches the inherited `Object` constructor:
   * `formatRank` and `getRankColor` as written return a function instead of a
   * label or a colour.
   */
  lemma ConstructorRankLeaks()
    ensures FormatRankAsWritten(Some("constructor")) == InheritedMember("constructor")
    ensures GetRankColorAsWritten(Some("constructor")) == InheritedMember("constructor")
  {
    ConstructorKey();
    InheritedKeysNotInTables();
    AsWrittenInherited("constructor", "constructor");
  }

  /** The rank `__proto__` reaches `Object.prototype` itself. */
  lemma ProtoRankLeaks()
    ensures FormatRankAsWritten(Some("__proto__")) == InheritedMember("__proto__")
    ensures GetRankColorAsWritten(Some("__proto__")) == InheritedMember("__proto__")
  {
    ProtoKey();
    InheritedKeysNotInTables();
    AsWrittenInherited("__proto__", "__proto__");
  }

  /** Everywhere else the lookups as written give exactly the corrected label and colour. */
  lemma AsWrittenAgreesOffPrototype(rankValue: Option<string>)
    requires Absent(rankValue) || NormalizeRank(rankValue.value) !in ObjectPrototypeMembers
    ensures FormatRankAsWritten(rankValue) == Str(FormatRank(rankValue))
    ensures GetRankColorAsWritten(rankValue) == Str(GetRankColor(rankValue))
  {
  }
}
