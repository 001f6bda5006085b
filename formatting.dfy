/**
 * Text rendering of a score alert
 * (`TelegramNotifications._format_score_message` in nautilus_channels/telegram.py):
 * Python's `int(...)`, the `:,` and `:+.2f` format specifications, the symbol
 * glyph table and the optional bold wrapping.
 */
module Formatting {
  import opened Bands

  predicate IsDigit(c: char) { '0' <= c <= '9' }

  predicate AllDigits(s: string) { forall i :: 0 <= i < |s| ==> IsDigit(s[i]) }

  predicate CommaFree(s: string) { forall i :: 0 <= i < |s| ==> s[i] != ',' }

  function DigitChar(d: nat): (c: char)
    requires d < 10
    ensures IsDigit(c) && DigitValue(c) == d
  {
    ('0' as int + d) as char
  }

  function DigitValue(c: char): (d: nat)
    requires IsDigit(c)
    ensures d < 10
  {
    c as int - '0' as int
  }

  /** Python's `int(x)` on a finite float: truncation toward zero. */
  function Truncate(x: real): (r: int)
    ensures 0.0 <= x ==> 0 <= r && r as real <= x < r as real + 1.0
    ensures x < 0.0 ==> r <= 0 && r as real - 1.0 < x <= r as real
  {
    if x >= 0.0 then x.Floor else -((-x).Floor)
  }

  /** The decimal digits of `n`, most significant first, without leading zeros. */
  function NatToString(n: nat): (s: string)
    ensures |s| >= 1 && AllDigits(s)
    ensures |s| > 1 ==> s[0] != '0'
    decreases n
  {
    if n < 10 then [DigitChar(n)] else NatToString(n / 10) + [DigitChar(n % 10)]
  }

  /** The value of a string of decimal digits (the reading partner of NatToString). */
  function ParseNat(s: string): nat
    requires AllDigits(s)
  {
    if s == [] then 0 else ParseNat(s[..|s| - 1]) * 10 + DigitValue(s[|s| - 1])
  }

  lemma {:induction false} ParseNatToString(n: nat)
    ensures ParseNat(NatToString(n)) == n
    decreases n
  {
    var s := NatToString(n);
    if n >= 10 {
      assert s[..|s| - 1] == NatToString(n / 10);
      ParseNatToString(n / 10);
    }
  }

  /** Inserts a comma before every group of three characters counted from the right. */
  function Group(s: string): (r: string)
    ensures |r| >= |s|
    ensures |s| >= 1 ==> r[0] == s[0]
    decreases |s|
  {
    if |s| <= 3 then s else Group(s[..|s| - 3]) + "," + s[|s| - 3..]
  }

  /** Drops every comma (the reading partner of Group). */
  function RemoveCommas(s: string): (r: string)
    ensures CommaFree(r)
  {
    if s == [] then [] else (if s[0] == ',' then [] else [s[0]]) + RemoveCommas(s[1..])
  }

  lemma {:induction false} RemoveCommasAppend(a: string, b: string)
    ensures RemoveCommas(a + b) == RemoveCommas(a) + RemoveCommas(b)
    decreases |a|
  {
    if a == [] {
      assert a + b == b;
    } else {
      assert (a + b)[1..] == a[1..] + b;
      RemoveCommasAppend(a[1..], b);
    }
  }

  lemma {:induction false} RemoveCommasOfCommaFree(s: string)
    requires CommaFree(s)
    ensures RemoveCommas(s) == s
    decreases |s|
  {
    if s != [] {
      RemoveCommasOfCommaFree(s[1..]);
    }
  }

  /** Grouping loses nothing: removing the commas gives the digits back. */
  lemma {:induction false} RemoveCommasOfGroup(s: string)
    requires CommaFree(s)
    ensures RemoveCommas(Group(s)) == s
    decreases |s|
  {
    if |s| <= 3 {
      RemoveCommasOfCommaFree(s);
    } else {
      var p, t := s[..|s| - 3], s[|s| - 3..];
      RemoveCommasOfGroup(p);
      RemoveCommasAppend(Group(p) + ",", t);
      RemoveCommasAppend(Group(p), ",");
      RemoveCommasOfCommaFree(t);
      assert p + t == s;
    }
  }

  /** One comma per full group of three below the leading group. */
  lemma {:induction false} GroupLength(s: string)
    requires |s| >= 1
    ensures |Group(s)| == |s| + (|s| - 1) / 3
    decreases |s|
  {
    if |s| > 3 {
      GroupLength(s[..|s| - 3]);
    }
  }

  /** Commas stand exactly at the positions a positive multiple of four from the end. */
  lemma {:induction false} GroupCommaPositions(s: string)
    requires CommaFree(s)
    ensures forall i :: 0 <= i < |Group(s)| ==>
      (Group(s)[i] == ',' <==> 0 < i && (|Group(s)| - i) % 4 == 0)
    decreases |s|
  {
    if |s| > 3 {
      var p, t := s[..|s| - 3], s[|s| - 3..];
      GroupCommaPositions(p);
      var g, r := Group(p), Group(s);
      assert r == g + "," + t;
      forall i | 0 <= i < |r|
        ensures r[i] == ',' <==> 0 < i && (|r| - i) % 4 == 0
      {
        CommaAt(g, t, i);
      }
    }
  }

  lemma CommaAt(g: string, t: string, i: int)
    requires |g| >= 1 && |t| == 3 && CommaFree(t)
    requires forall k :: 0 <= k < |g| ==> (g[k] == ',' <==> 0 < k && (|g| - k) % 4 == 0)
    requires 0 <= i < |g| + 4
    ensures (g + "," + t)[i] == ',' <==> 0 < i && (|g| + 4 - i) % 4 == 0
  {
  }

  /** Python's `f"{n:,}"`: the decimal digits of `n` with comma thousands
      separators, after a minus sign for a negative `n`. */
  function GroupThousands(n: int): (r: string)
    ensures |r| >= 1
    ensures r[0] == '-' <==> n < 0
  {
    if n < 0 then "-" + Group(NatToString(-n)) else Group(NatToString(n))
  }

  /** Reads back a string produced by GroupThousands. */
  function ParseGrouped(s: string): int
    requires s != [] && AllDigits(RemoveCommas(if s[0] == '-' then s[1..] else s))
  {
    if s[0] == '-' then 0 - ParseNat(RemoveCommas(s[1..])) else ParseNat(RemoveCommas(s))
  }

  lemma DigitsAreCommaFree(s: string)
    requires AllDigits(s)
    ensures CommaFree(s)
  {
  }

  /** The grouped price determines the integer it shows. */
  lemma GroupThousandsRoundTrip(n: int)
    ensures var r := GroupThousands(n);
      AllDigits(RemoveCommas(if r[0] == '-' then r[1..] else r)) && ParseGrouped(r) == n
  {
    var m: nat := if n < 0 then -n else n;
    var d := NatToString(m);
    DigitsAreCommaFree(d);
    RemoveCommasOfGroup(d);
    ParseNatToString(m);
    var r := GroupThousands(n);
    if n < 0 {
      assert r[1..] == Group(d);
    } else {
      assert r == Group(d);
      assert r[0] != '-';
    }
  }

  /** Round half to even of a non-negative real: the integer nearest to `y`,
      the even one of the two at a tie. */
  function RoundHalfEven(y: real): (q: nat)
    requires y >= 0.0
    ensures -0.5 <= q as real - y <= 0.5
    ensures (q as real - y == 0.5 || y - q as real == 0.5) ==> q % 2 == 0
  {
    var f := y.Floor;
    var frac := y - f as real;
    if frac < 0.5 then f
    else if frac > 0.5 then f + 1
    else if f % 2 == 0 then f
    else f + 1
  }

  function Abs(x: real): (a: real)
    ensures a >= 0.0 && (a == x || a == -x)
  {
    if x < 0.0 then -x else x
  }

  /** The two decimals of a value counted in hundredths. */
  function TwoDigits(q: nat): (r: string)
    ensures |r| == 2 && AllDigits(r)
  {
    [DigitChar(q % 100 / 10), DigitChar(q % 10)]
  }

  lemma TwoDigitsValue(q: nat)
    ensures ParseNat(TwoDigits(q)) == q % 100
  {
    var r := TwoDigits(q);
    assert r[..1][..0] == [];
    assert ParseNat(r[..1]) == q % 100 / 10;
  }

  /** Python's `f"{x:+.2f}"` on the exact value `x`: the sign (minus exactly
      when `x` is negative), the integer part, a point and two decimals of
      `|x|` rounded half to even at the second decimal. */
  function FormatSigned2(x: real): (r: string)
    ensures |r| >= 5
    ensures r[0] == (if x < 0.0 then '-' else '+')
    ensures r[|r| - 3] == '.'
  {
    var q := RoundHalfEven(Abs(x) * 100.0);
    (if x < 0.0 then "-" else "+") + NatToString(q / 100) + "." + TwoDigits(q)
  }

  lemma SignedLayout(sign: string, ip: string, fp: string)
    requires |sign| == 1 && |fp| == 2
    ensures var r := sign + ip + "." + fp;
      r[0] == sign[0] && r[1..|r| - 3] == ip && r[|r| - 3] == '.' && r[|r| - 2..] == fp
  {
  }

  /** The rendered score reads back as a number within 0.005 of the score,
      with the score's sign in front and a point before the last two digits. */
  lemma FormatSigned2Value(x: real)
    ensures var r := FormatSigned2(x);
      && (r[0] == '-' <==> x < 0.0)
      && (r[0] == '+' <==> x >= 0.0)
      && r[|r| - 3] == '.'
      && AllDigits(r[1..|r| - 3]) && AllDigits(r[|r| - 2..])
      && var v := (ParseNat(r[1..|r| - 3]) * 100 + ParseNat(r[|r| - 2..])) as real / 100.0;
         -0.005 <= v - Abs(x) <= 0.005
  {
    var q := RoundHalfEven(Abs(x) * 100.0);
    var ip := NatToString(q / 100);
    SignedLayout(if x < 0.0 then "-" else "+", ip, TwoDigits(q));
    ParseNatToString(q / 100);
    TwoDigitsValue(q);
    assert ParseNat(ip) * 100 + ParseNat(TwoDigits(q)) == q;
  }

  /** The glyph shown for a trading symbol: bitcoin and ether get their
      currency signs, any other symbol is shown as it is. */
  function SymbolChar(symbol: string): (r: string)
    ensures symbol == "BTCUSDT" ==> r == "\U{20BF}"
    ensures symbol == "ETHUSDT" ==> r == "\U{039E}"
    ensures symbol != "BTCUSDT" && symbol != "ETHUSDT" ==> r == symbol
  {
    var glyphs := map["BTCUSDT" := "\U{20BF}", "ETHUSDT" := "\U{039E}"];
    if symbol in glyphs then glyphs[symbol] else symbol
  }

  /** The f-string of the alert line, `sign + " " + glyph + " " + price + " Score: " + fixed + " " + text`,
      described by where each field sits. */
  function JoinFields(sign: string, glyph: string, price: string, fixed: string, text: string): (r: string)
    ensures
      var a := |sign| + 1;
      var b := a + |glyph| + 1;
      var c := b + |price|;
      var d := c + 8 + |fixed|;
      && |r| == d + 1 + |text|
      && r[..a - 1] == sign && r[a - 1] == ' '
      && r[a..b - 1] == glyph && r[b - 1] == ' '
      && r[b..c] == price
      && r[c..c + 8] == " Score: "
      && r[c + 8..d] == fixed && r[d] == ' '
      && r[d + 1..] == text
  {
    var head := sign + " " + glyph + " ";
    var mid := price + " Score: " + fixed;
    var r := sign + " " + glyph + " " + price + " Score: " + fixed + " " + text;
    assert r == head + mid + " " + text;
    assert head[..|sign|] == sign && head[|sign| + 1..|head| - 1] == glyph;
    assert r[..|head|] == head;
    assert r[|head|..|head| + |mid|] == mid;
    assert mid[..|price|] == price && mid[|price|..|price| + 8] == " Score: " && mid[|price| + 8..] == fixed;
    assert r[|head| + |mid| + 1..] == text;
    r
  }

  /** The unwrapped alert line: sign, symbol glyph, grouped truncated price,
      the signed score with two decimals and the band text, separated by spaces. */
  function ScoreLine(closePrice: real, score: real, band: Band, symbol: string): (r: string)
    ensures var sign, text := band.sign, band.text;
      var glyph := SymbolChar(symbol);
      var price := GroupThousands(Truncate(closePrice));
      var fixed := FormatSigned2(score);
      var a := |sign| + 1;
      var b := a + |glyph| + 1;
      var c := b + |price|;
      var d := c + 8 + |fixed|;
      && |r| == d + 1 + |text|
      && r[..a - 1] == sign && r[a - 1] == ' '
      && r[a..b - 1] == glyph && r[b - 1] == ' '
      && r[b..c] == price
      && r[c..c + 8] == " Score: "
      && r[c + 8..d] == fixed && r[d] == ' '
      && r[d + 1..] == text
  {
    JoinFields(band.sign, SymbolChar(symbol), GroupThousands(Truncate(closePrice)), FormatSigned2(score), band.text)
  }

  /** The alert text: the score line, wrapped in `*` exactly when the band is bold. */
  function FormatScoreMessage(closePrice: real, score: real, band: Band, symbol: string): (r: string)
    ensures var line := ScoreLine(closePrice, score, band, symbol);
      && (band.bold ==> |r| == |line| + 2 && r[0] == '*' && r[|r| - 1] == '*' && r[1..|r| - 1] == line)
      && (!band.bold ==> r == line)
  {
    var message := ScoreLine(closePrice, score, band, symbol);
    if band.bold then "*" + message + "*" else message
  }

  lemma BitcoinPriceText()
    ensures GroupThousands(Truncate(65000.4)) == "65,000"
  {
  }

  lemma BitcoinScoreText()
    ensures FormatSigned2(1.2345) == "+1.23"
  {
  }

  /** A worked example: price 65000.4, score 1.2345, a bold band for BTCUSDT. */
  lemma BitcoinBreakoutMessage()
    ensures FormatScoreMessage(65000.4, 1.2345, Band(2.0, "\U{2191}", "breakout", true), "BTCUSDT")
      == "*" + "\U{2191}" + " " + "\U{20BF}" + " " + "65,000" + " Score: " + "+1.23" + " " + "breakout" + "*"
  {
    var band := Band(2.0, "\U{2191}", "breakout", true);
    var line := ScoreLine(65000.4, 1.2345, band, "BTCUSDT");
    BitcoinPriceText();
    BitcoinScoreText();
    assert SymbolChar("BTCUSDT") == "\U{20BF}";
    assert line == "\U{2191}" + " " + "\U{20BF}" + " " + "65,000" + " Score: " + "+1.23" + " " + "breakout";
    assert FormatScoreMessage(65000.4, 1.2345, band, "BTCUSDT") == "*" + line + "*";
  }
}
