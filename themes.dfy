/**
  Theme extraction of `Analyzer`: the keyword ranker `extractThemesNaive`
  and the parser that turns the language model's reply text into themes.
*/
module Themes {
  import opened Strings

  /** A character of `\w` as Qt's regular expressions read it without Unicode properties. */
  predicate IsWordChar(ch: char)
  {
    ('a' <= ch <= 'z') || ('A' <= ch <= 'Z') || ('0' <= ch <= '9') || ch == '_'
  }

  /** `text.toLower().split(QRegularExpression("\\W+"), Qt::SkipEmptyParts)`. */
  function Tokens(text: string): (toks: seq<string>)
    ensures forall k :: 0 <= k < |toks| ==> toks[k] != []
  {
    SkipEmpty(SplitWhere(Lower(text), (ch: char) => !IsWordChar(ch)))
  }

  const StopWords: set<string> := {
    "the", "a", "an", "and", "or", "to", "of", "in", "on", "for", "is", "are", "was", "were",
    "with", "as", "by", "at", "from", "that", "this", "it", "be", "have", "has", "had", "not",
    "but", "we", "you", "they", "he", "she", "i"
  }

  /** A token the ranker counts: at least three characters and no stop word. */
  predicate Qualifies(tok: string)
  {
    |tok| >= 3 && tok !in StopWords
  }

  function QualifyingTokens(toks: seq<string>): set<string>
  {
    set k | 0 <= k < |toks| && Qualifies(toks[k]) :: toks[k]
  }

  /** How often a token occurs. */
  function Count(toks: seq<string>, w: string): nat
  {
    multiset(toks)[w]
  }

  predicate Distinct(out: seq<string>)
  {
    forall i, j :: 0 <= i < j < |out| ==> out[i] != out[j]
  }

  /**
    What `extractThemesNaive` promises for the tokens `toks`: `["trends"]`
    when nothing qualifies; otherwise as many distinct qualifying tokens as
    there are, up to five, in non-increasing order of count, none left out
    that occurs more often than the last one taken.  The order among equal
    counts is left open, as `std::sort` leaves it.
  */
  ghost predicate RankedThemes(toks: seq<string>, out: seq<string>)
  {
    var q := QualifyingTokens(toks);
    if q == {} then out == ["trends"]
    else
      |out| == (if |q| < 5 then |q| else 5)
      && Distinct(out)
      && (forall i :: 0 <= i < |out| ==> out[i] in q)
      && (forall i, j :: 0 <= i < j < |out| ==> Count(toks, out[i]) >= Count(toks, out[j]))
      && (forall w :: w in q && w !in out ==> Count(toks, w) <= Count(toks, out[|out| - 1]))
  }

  /** A non-empty finite set of keys has one of highest frequency. */
  lemma {:induction false} MaxExists(keys: set<string>, freq: map<string, nat>)
    requires keys != {} && keys <= freq.Keys
    ensures exists w :: w in keys && forall v :: v in keys ==> freq[v] <= freq[w]
    decreases |keys|
  {
    var x :| x in keys;
    var rest := keys - {x};
    if rest != {} {
      MaxExists(rest, freq);
      var m :| m in rest && forall v :: v in rest ==> freq[v] <= freq[m];
      if freq[x] <= freq[m] {
        assert forall v :: v in keys ==> freq[v] <= freq[m];
      } else {
        assert forall v :: v in keys ==> freq[v] <= freq[x];
      }
    } else {
      assert keys == {x};
    }
  }

  lemma QualifyingSnoc(toks: seq<string>, raw: string)
    ensures QualifyingTokens(toks + [raw])
      == QualifyingTokens(toks) + (if Qualifies(raw) then {raw} else {})
  {
    var all := toks + [raw];
    forall w | w in QualifyingTokens(all)
      ensures w in QualifyingTokens(toks) + (if Qualifies(raw) then {raw} else {})
    {
      var k :| 0 <= k < |all| && Qualifies(all[k]) && all[k] == w;
      if k < |toks| {
        assert toks[k] == w;
      }
    }
    forall w | w in QualifyingTokens(toks)
      ensures w in QualifyingTokens(all)
    {
      var k :| 0 <= k < |toks| && Qualifies(toks[k]) && toks[k] == w;
      assert all[k] == w;
    }
    if Qualifies(raw) {
      assert all[|toks|] == raw;
    }
  }

  /** The counting loop of `extractThemesNaive`: a count for every qualifying token. */
  method CountQualifying(toks: seq<string>) returns (freq: map<string, nat>)
    ensures freq.Keys == QualifyingTokens(toks)
    ensures forall w :: w in freq ==> freq[w] == Count(toks, w)
  {
    freq := map[];
    for i := 0 to |toks|
      invariant freq.Keys == QualifyingTokens(toks[..i])
      invariant forall w :: w in freq ==> freq[w] == Count(toks[..i], w)
    {
      var raw := toks[i];
      assert toks[..i + 1] == toks[..i] + [raw];
      QualifyingSnoc(toks[..i], raw);
      if |raw| < 3 {
        continue;
      }
      if raw in StopWords {
        continue;
      }
      freq := freq[raw := (if raw in freq then freq[raw] else 0) + 1];
    }
    assert toks[..|toks|] == toks;
  }

  /**
    The keys `out` take from `freq`: as many distinct keys as there are, up
    to five, in non-increasing order of frequency, none left out that is more
    frequent than the last one taken.
  */
  ghost predicate TopOf(freq: map<string, nat>, out: seq<string>)
  {
    |out| == (if |freq.Keys| < 5 then |freq.Keys| else 5)
    && Distinct(out)
    && (forall i :: 0 <= i < |out| ==> out[i] in freq)
    && (forall i, j :: 0 <= i < j < |out| ==> freq[out[i]] >= freq[out[j]])
    && (out != [] ==> forall w :: w in freq && w !in out ==> freq[w] <= freq[out[|out| - 1]])
  }

  /**
    The sort by count followed by taking the first five, performed as five
    choices of a most frequent key not yet taken.
  */
  method TopFive(freq: map<string, nat>) returns (out: seq<string>)
    ensures TopOf(freq, out)
  {
    ghost var q := freq.Keys;
    var remaining := freq.Keys;
    out := [];
    while |out| < 5 && remaining != {}
      invariant remaining <= q
      invariant forall i :: 0 <= i < |out| ==> out[i] in q && out[i] !in remaining
      invariant forall w :: w in q && w !in out ==> w in remaining
      invariant |remaining| + |out| == |q| && |out| <= 5
      invariant Distinct(out)
      invariant forall i, j :: 0 <= i < j < |out| ==> freq[out[i]] >= freq[out[j]]
      invariant out != [] ==> forall w :: w in remaining ==> freq[w] <= freq[out[|out| - 1]]
      decreases |remaining|
    {
      MaxExists(remaining, freq);
      var w :| w in remaining && forall v :: v in remaining ==> freq[v] <= freq[w];
      out := out + [w];
      remaining := remaining - {w};
    }
  }

  /** `extractThemesNaive`: count the qualifying tokens, then take the most frequent ones, at most five. */
  method ExtractThemesNaive(text: string) returns (out: seq<string>)
    ensures RankedThemes(Tokens(text), out)
    ensures 1 <= |out| <= 5
  {
    var toks := Tokens(text);
    var freq := CountQualifying(toks);
    out := TopFive(freq);
    if out == [] {
      out := ["trends"];
    }
  }

  // ---- the reply of the language model ----

  /** An explanation line: it has a colon and no comma. */
  predicate IsExplanationLine(line: string)
  {
    ':' in line && ',' !in line
  }

  /** `theme.trimmed().toLower()`. */
  function CleanTheme(piece: string): string
  {
    Lower(Trim(piece))
  }

  /** Filler the parser drops: an introduction, or fewer than three characters. */
  predicate IsFiller(t: string)
  {
    "based on" <= t || "here are" <= t || |t| < 3
  }

  /** The kept themes of the comma-separated pieces of one line, in order. */
  function PieceThemes(pieces: seq<string>): seq<string>
    decreases |pieces|
  {
    if pieces == [] then []
    else
      var t := CleanTheme(pieces[|pieces| - 1]);
      PieceThemes(pieces[..|pieces| - 1]) + (if IsFiller(t) then [] else [t])
  }

  function LineThemes(line: string): seq<string>
  {
    if IsExplanationLine(line) then [] else PieceThemes(SkipEmpty(SplitOn(line, ',')))
  }

  /** The themes of every line, in order. */
  function LinesThemes(lines: seq<string>): seq<string>
  {
    FlatMap(LineThemes, lines)
  }

  function ReplyLines(reply: string): seq<string>
  {
    SkipEmpty(SplitOn(reply, '\n'))
  }

  /** Every theme of the reply, then the first five of them. */
  function ParsedThemes(reply: string): seq<string>
  {
    Take(LinesThemes(ReplyLines(reply)), 5)
  }

  /** The inner loop of `analyzeTextLLM`: the kept themes of one line's pieces. */
  method CleanPieces(pieces: seq<string>) returns (themes: seq<string>)
    ensures themes == PieceThemes(pieces)
  {
    themes := [];
    for j := 0 to |pieces|
      invariant themes == PieceThemes(pieces[..j])
    {
      assert pieces[..j + 1] == pieces[..j] + [pieces[j]];
      PieceThemesSnoc(pieces[..j], pieces[j]);
      var cleanTheme := Lower(Trim(pieces[j]));
      if "based on" <= cleanTheme || "here are" <= cleanTheme || |cleanTheme| < 3 {
        continue;
      }
      themes := themes + [cleanTheme];
    }
    assert pieces[..|pieces|] == pieces;
  }

  /** `while (themes.size() > 5) themes.removeLast();` */
  method DropBeyondFive(all: seq<string>) returns (themes: seq<string>)
    ensures themes == Take(all, 5)
  {
    themes := all;
    while |themes| > 5
      invariant |themes| >= 5 ==> themes == Take(all, |themes|)
      invariant |themes| < 5 ==> themes == all
      decreases |themes|
    {
      themes := themes[..|themes| - 1];
    }
  }

  /** The loops of `analyzeTextLLM` over the reply's lines and each line's pieces, then the cut to five. */
  method ParseThemeReply(textContent: string) returns (themes: seq<string>)
    ensures themes == ParsedThemes(textContent)
  {
    themes := [];
    var lines := ReplyLines(textContent);
    for i := 0 to |lines|
      invariant themes == LinesThemes(lines[..i])
    {
      var line := lines[i];
      assert lines[..i + 1] == lines[..i] + [line];
      LinesThemesSnoc(lines[..i], line);
      if ':' in line && ',' !in line {
        continue;
      }
      var kept := CleanPieces(SkipEmpty(SplitOn(line, ',')));
      themes := themes + kept;
    }
    assert lines[..|lines|] == lines;
    themes := DropBeyondFive(themes);
  }

  /** A single cleaned theme. */
  predicate IsCleanTheme(t: string)
  {
    |t| >= 3 && !("based on" <= t) && !("here are" <= t)
    && ',' !in t && '\n' !in t && Lower(t) == t
  }

  lemma CleanThemeShape(piece: string)
    requires ',' !in piece && '\n' !in piece
    ensures ',' !in CleanTheme(piece) && '\n' !in CleanTheme(piece)
    ensures Lower(CleanTheme(piece)) == CleanTheme(piece)
  {
    TrimProperties(piece);
    var i, j :| 0 <= i <= j <= |piece| && Trim(piece) == piece[i..j];
    var t := Trim(piece);
    forall k | 0 <= k < |t|
      ensures t[k] != ',' && t[k] != '\n'
    {
      assert t[k] == piece[i + k];
    }
    LowerIdempotent(t);
  }

  lemma {:induction false} PieceThemesClean(pieces: seq<string>)
    requires forall k :: 0 <= k < |pieces| ==> ',' !in pieces[k] && '\n' !in pieces[k]
    ensures forall k :: 0 <= k < |PieceThemes(pieces)| ==> IsCleanTheme(PieceThemes(pieces)[k])
    decreases |pieces|
  {
    if pieces != [] {
      PieceThemesClean(pieces[..|pieces| - 1]);
      CleanThemeShape(pieces[|pieces| - 1]);
    }
  }

  lemma {:induction false} LinesThemesClean(lines: seq<string>)
    requires forall k :: 0 <= k < |lines| ==> '\n' !in lines[k]
    ensures forall k :: 0 <= k < |LinesThemes(lines)| ==> IsCleanTheme(LinesThemes(lines)[k])
    decreases |lines|
  {
    if lines != [] {
      LinesThemesClean(lines[..|lines| - 1]);
      var line := lines[|lines| - 1];
      assert LinesThemes(lines) == LinesThemes(lines[..|lines| - 1]) + LineThemes(line);
      if !IsExplanationLine(line) {
        SplitOnRoundTrip(line, ',');
        var pieces := SkipEmpty(SplitOn(line, ','));
        forall k | 0 <= k < |pieces|
          ensures ',' !in pieces[k] && '\n' !in pieces[k]
        {
          var m :| 0 <= m < |SplitOn(line, ',')| && pieces[k] == SplitOn(line, ',')[m];
          if '\n' in pieces[k] {
            SplitWhereChars(line, (x: char) => x == ',', m, '\n');
          }
        }
        PieceThemesClean(pieces);
      }
    }
  }

  /**
    The parser yields at most five themes, each at least three characters
    long, lower case, free of commas and line breaks, and never an
    introduction such as "here are" or "based on".
  */
  lemma ParsedThemesShape(reply: string)
    ensures |ParsedThemes(reply)| <= 5
    ensures forall k :: 0 <= k < |ParsedThemes(reply)| ==> IsCleanTheme(ParsedThemes(reply)[k])
  {
    SplitOnRoundTrip(reply, '\n');
    var lines := ReplyLines(reply);
    forall k | 0 <= k < |lines|
      ensures '\n' !in lines[k]
    {
      var m :| 0 <= m < |SplitOn(reply, '\n')| && lines[k] == SplitOn(reply, '\n')[m];
    }
    LinesThemesClean(lines);
  }

  /** An explanation line contributes nothing, wherever it stands. */
  lemma ExplanationLineSkipped(before: seq<string>, line: string, after: seq<string>)
    requires IsExplanationLine(line)
    ensures LinesThemes(before + [line] + after) == LinesThemes(before) + LinesThemes(after)
  {
    FlatMapAppend(LineThemes, before + [line], after);
    LinesThemesSnoc(before, line);
  }

  lemma PieceThemesSnoc(pieces: seq<string>, piece: string)
    ensures PieceThemes(pieces + [piece])
      == PieceThemes(pieces) + (if IsFiller(CleanTheme(piece)) then [] else [CleanTheme(piece)])
  {
    assert (pieces + [piece])[..|pieces|] == pieces;
  }

  lemma LinesThemesSnoc(lines: seq<string>, line: string)
    ensures LinesThemes(lines + [line]) == LinesThemes(lines) + LineThemes(line)
  {
    assert (lines + [line])[..|lines|] == lines;
  }

  /**
    Lines 164-188 of `analyzeTextLLM` with their fallback: the parsed themes,
    or the naive ranking of the analysed text when none survive.
  */
  method ThemesFromReply(text: string, textContent: string) returns (themes: seq<string>)
    ensures 1 <= |themes| <= 5
    ensures ParsedThemes(textContent) != [] ==> themes == ParsedThemes(textContent)
    ensures ParsedThemes(textContent) == [] ==> RankedThemes(Tokens(text), themes)
  {
    themes := ParseThemeReply(textContent);
    if themes == [] {
      themes := ExtractThemesNaive(text);
    }
  }
}
