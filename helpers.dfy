/** The client's pure helpers: HTML escaping, the relative age label and the
    colour of the truth score. */
module Helpers {
  import opened Wrappers
  import opened Values
  import opened Strings

  /** `escapeHtml`: "" for a falsy value, otherwise `&`, `<` and `>` replaced in that order. */
  function EscapeHtml(s: Option<string>): (r: string)
    ensures !Truthy(s) ==> r == ""
    ensures '<' !in r && '>' !in r
  {
    if !Truthy(s) then "" else EscapeChained(s.value)
  }

  /** The entity written for one character (the character itself when it needs none). */
  function EscapeChar(c: char): string {
    if c == '&' then "&amp;"
    else if c == '<' then "&lt;"
    else if c == '>' then "&gt;"
    else [c]
  }

  /** Reference definition: every character escaped on its own. */
  function EscapeEach(s: string): string
    decreases |s|
  {
    if |s| == 0 then "" else EscapeChar(s[0]) + EscapeEach(s[1..])
  }

  /** `s.replaceAll('&','&amp;').replaceAll('<','&lt;').replaceAll('>','&gt;')`. */
  function EscapeChained(s: string): string {
    ReplaceAll(ReplaceAll(ReplaceAll(s, '&', "&amp;"), '<', "&lt;"), '>', "&gt;")
  }

  lemma ReplaceAllSingle(c: char, pattern: char, rep: string)
    ensures ReplaceAll([c], pattern, rep) == if c == pattern then rep else [c]
  {
    assert [c][1..] == [];
  }

  /** Escaping one character with the three chained replacements. */
  lemma EscapeOneChar(c: char)
    ensures EscapeChained([c]) == EscapeChar(c)
  {
    ReplaceAllSingle(c, '&', "&amp;");
    if c == '&' {
      assert '<' !in "&amp;" && '>' !in "&amp;";
    } else {
      ReplaceAllSingle(c, '<', "&lt;");
      if c == '<' {
        assert '>' !in "&lt;";
      } else {
        ReplaceAllSingle(c, '>', "&gt;");
      }
    }
  }

  /** Because `&` is replaced first, the chained replacements escape each character
      independently: `&` never gets escaped twice. */
  lemma {:induction false} EscapeIsPerCharacter(s: string)
    ensures EscapeChained(s) == EscapeEach(s)
    decreases |s|
  {
    if |s| > 0 {
      var head, tail := [s[0]], s[1..];
      assert s == head + tail;
      ReplaceAllAppend(head, tail, '&', "&amp;");
      var a1, a2 := ReplaceAll(head, '&', "&amp;"), ReplaceAll(tail, '&', "&amp;");
      ReplaceAllAppend(a1, a2, '<', "&lt;");
      var b1, b2 := ReplaceAll(a1, '<', "&lt;"), ReplaceAll(a2, '<', "&lt;");
      ReplaceAllAppend(b1, b2, '>', "&gt;");
      EscapeOneChar(s[0]);
      EscapeIsPerCharacter(tail);
    }
  }

  /** A truthy string is escaped character by character. */
  lemma EscapeHtmlPerCharacter(s: string)
    requires s != ""
    ensures EscapeHtml(Some(s)) == EscapeEach(s)
  {
    EscapeIsPerCharacter(s);
  }

  /** A string without `&`, `<` and `>` is returned unchanged. */
  lemma EscapeHtmlPlain(s: string)
    requires '&' !in s && '<' !in s && '>' !in s
    ensures EscapeHtml(Some(s)) == s
  {
  }

  /** `timeAgo`, given `diff = Date.now() - new Date(iso).getTime()` in milliseconds;
      None is the NaN an unparseable date gives, which falls through to "NaNd". */
  function TimeAgo(diff: Option<int>): (r: string)
    ensures diff.None? ==> r == "NaNd"
    ensures diff.Some? ==> (r == "just now" <==> diff.value < MsPerMinute)
    ensures diff.Some? && MsPerMinute <= diff.value < MsPerHour ==> r == Decimal(diff.value / MsPerMinute) + "m"
    ensures diff.Some? && MsPerHour <= diff.value < MsPerDay ==> r == Decimal(diff.value / MsPerHour) + "h"
    ensures diff.Some? && MsPerDay <= diff.value ==> r == Decimal(diff.value / MsPerDay) + "d"
  {
    if diff.None? then "NaNd"
    else
      // Math.floor of a quotient by a positive number is Dafny's division
      var m := diff.value / (1000 * 60);
      if m < 1 then "just now"
      else if m < 60 then
        // "just now" ends in 'w', unlike a number followed by "m", "h" or "d"
        assert ("just now")[7] == 'w';
        Decimal(m) + "m"
      else
        var h := m / 60;
        MinutesToHours(diff.value);
        // as above: keeps the "just now" iff apart from the later branches
        assert ("just now")[7] == 'w';
        if h < 24 then Decimal(h) + "h"
        else
          HoursToDays(diff.value);
          Decimal(h / 24) + "d"
  }

  /** Whole hours from whole minutes, whole days from whole hours. */
  lemma MinutesToHours(a: int)
    ensures a / 60000 / 60 == a / 3600000
  {
    var q, r := a / 60000, a % 60000;
    var q2, r2 := q / 60, q % 60;
    assert a == 3600000 * q2 + (60000 * r2 + r);
  }

  lemma HoursToDays(a: int)
    ensures a / 3600000 / 24 == a / 86400000
  {
    var q, r := a / 3600000, a % 3600000;
    var q2, r2 := q / 24, q % 24;
    assert a == 86400000 * q2 + (3600000 * r2 + r);
  }

  /** The colour of the truth score in the analysis view. */
  datatype Color = Green | Orange | Red

  /** `truthScore >= 80 ? 'green' : truthScore >= 50 ? 'orange' : 'red'`; an absent
      (or null) score compares false both times. */
  function TruthColor(score: Option<real>): (c: Color)
    ensures c == Green <==> score.Some? && score.value >= 80.0
    ensures c == Orange <==> score.Some? && 50.0 <= score.value < 80.0
    ensures c == Red <==> score.None? || score.value < 50.0
  {
    if score.Some? && score.value >= 80.0 then Green
    else if score.Some? && score.value >= 50.0 then Orange
    else Red
  }

  function Rank(c: Color): nat {
    match c
    case Red => 0
    case Orange => 1
    case Green => 2
  }

  /** A higher score never gets a worse colour. */
  lemma TruthColorMonotone(x: real, y: real)
    requires x <= y
    ensures Rank(TruthColor(Some(x))) <= Rank(TruthColor(Some(y)))
  {
  }
}
