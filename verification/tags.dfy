/**
  The tag parser of the track dialog, and the way a tag list is printed back.
 */
module Tags {
  /** unicode.IsSpace, which strings.TrimSpace uses. */
  predicate IsSpace(c: char) {
    || '\t' <= c <= '\r' || c == ' ' || c == '\U{85}' || c == '\U{A0}' || c == '\U{1680}'
    || '\U{2000}' <= c <= '\U{200A}' || c == '\U{2028}' || c == '\U{2029}' || c == '\U{202F}'
    || c == '\U{205F}' || c == '\U{3000}'
  }

  function TrimLeft(s: string): string {
    if s != "" && IsSpace(s[0]) then TrimLeft(s[1..]) else s
  }

  function TrimRight(s: string): string {
    if s != "" && IsSpace(s[|s|-1]) then TrimRight(s[..|s|-1]) else s
  }

  function TrimSpace(s: string): string {
    TrimRight(TrimLeft(s))
  }

  /** strings.Split on commas; there is always at least one piece. */
  function Split(s: string): (pieces: seq<string>)
    ensures pieces != []
  {
    if s == "" then [""]
    else
      var rest := Split(s[1..]);
      if s[0] == ',' then [""] + rest else [[s[0]] + rest[0]] + rest[1..]
  }

  /**
    The lower case of a character as far as it matters for "skip": two characters outside ASCII,
    the Kelvin sign and the dotted capital I, also map to letters of that word.
   */
  function Lower(c: char): char {
    if 'A' <= c <= 'Z' then (c as int + 32) as char
    else if c == '\U{212A}' then 'k'
    else if c == '\U{130}' then 'i'
    else c
  }

  predicate IsSkip(s: string) {
    |s| == 4 && Lower(s[0]) == 's' && Lower(s[1]) == 'k' && Lower(s[2]) == 'i' && Lower(s[3]) == 'p'
  }

  function NonBlank(pieces: seq<string>): seq<string> {
    if pieces == [] then []
    else
      var last := TrimSpace(pieces[|pieces|-1]);
      NonBlank(pieces[..|pieces|-1]) + if last != "" then [last] else []
  }

  function Parse(text: string): seq<string> {
    var rawText := TrimSpace(text);
    if IsSkip(rawText) then [] else NonBlank(Split(rawText))
  }

  method ParseTags(text: string) returns (tags: seq<string>)
    ensures tags == Parse(text)
  {
    var rawText := TrimSpace(text);
    tags := [];
    if !IsSkip(rawText) {
      var splitTags := Split(rawText);
      for i := 0 to |splitTags|
        invariant tags == NonBlank(splitTags[..i])
      {
        assert splitTags[..i+1][..i] == splitTags[..i];
        var trimmed := TrimSpace(splitTags[i]);
        if trimmed != "" {
          tags := tags + [trimmed];
        }
      }
      assert splitTags[..|splitTags|] == splitTags;
    }
  }

  /** strings.Join(tags, ", "), as the list command prints them. */
  function Join(tags: seq<string>): string {
    if tags == [] then ""
    else if |tags| == 1 then tags[0]
    else tags[0] + ", " + Join(tags[1..])
  }

  // ---------------------------------------------------------------- what the parser yields

  predicate IsTrimmed(s: string) {
    s == "" || (!IsSpace(s[0]) && !IsSpace(s[|s|-1]))
  }

  ghost predicate IsTag(s: string) {
    s != "" && IsTrimmed(s) && ',' !in s
  }

  lemma {:induction false} TrimLeftSuffix(s: string)
    ensures TrimLeft(s) == "" || !IsSpace(TrimLeft(s)[0])
    ensures forall c :: c in TrimLeft(s) ==> c in s
  {
    if s != "" { TrimLeftSuffix(s[1..]); }
  }

  lemma {:induction false} TrimRightPrefix(s: string)
    ensures TrimRight(s) <= s
    ensures TrimRight(s) == "" || !IsSpace(TrimRight(s)[|TrimRight(s)|-1])
  {
    if s != "" { TrimRightPrefix(s[..|s|-1]); }
  }

  lemma TrimSpaceTrims(s: string)
    ensures IsTrimmed(TrimSpace(s))
    ensures forall c :: c in TrimSpace(s) ==> c in s
  {
    TrimLeftSuffix(s);
    TrimRightPrefix(TrimLeft(s));
    assert forall c :: c in TrimSpace(s) ==> c in TrimLeft(s);
  }

  lemma {:induction false} SplitPieces(s: string, i: nat)
    requires i < |Split(s)|
    ensures ',' !in Split(s)[i]
  {
    if s != "" {
      if s[0] == ',' {
        if i > 0 { SplitPieces(s[1..], i - 1); }
      } else {
        SplitPieces(s[1..], i);
      }
    }
  }

  lemma {:induction false} NonBlankTags(pieces: seq<string>)
    requires forall i :: 0 <= i < |pieces| ==> ',' !in pieces[i]
    ensures forall i :: 0 <= i < |NonBlank(pieces)| ==> IsTag(NonBlank(pieces)[i])
  {
    if pieces != [] {
      NonBlankTags(pieces[..|pieces|-1]);
      TrimSpaceTrims(pieces[|pieces|-1]);
    }
  }

  /** Every parsed tag is non-empty, trimmed and free of commas. */
  lemma ParseYieldsTags(text: string)
    ensures forall i :: 0 <= i < |Parse(text)| ==> IsTag(Parse(text)[i])
  {
    var pieces := Split(TrimSpace(text));
    forall i: nat | i < |pieces| ensures ',' !in pieces[i] {
      SplitPieces(TrimSpace(text), i);
    }
    NonBlankTags(pieces);
  }

  // ---------------------------------------------------------------- what splitting means

  lemma {:induction false} SplitNoComma(t: string)
    requires ',' !in t
    ensures Split(t) == [t]
  {
    if t != "" {
      SplitNoComma(t[1..]);
      assert [t[0]] + t[1..] == t;
    }
  }

  lemma {:induction false} SplitAtComma(t: string, s: string)
    requires ',' !in t
    ensures Split(t + "," + s) == [t] + Split(s)
  {
    var whole := t + "," + s;
    if t == "" {
      assert whole[1..] == s && whole[0] == ',';
    } else {
      assert whole[0] == t[0] && whole[1..] == t[1..] + "," + s;
      SplitAtComma(t[1..], s);
      assert [t[0]] + t[1..] == t;
    }
  }

  function TagOf(piece: string): seq<string> {
    if TrimSpace(piece) != "" then [TrimSpace(piece)] else []
  }

  lemma NonBlankLast(pieces: seq<string>, last: string)
    ensures NonBlank(pieces + [last]) == NonBlank(pieces) + TagOf(last)
  {
    assert (pieces + [last])[..|pieces|] == pieces;
  }

  lemma {:induction false} NonBlankFirst(first: string, rest: seq<string>)
    ensures NonBlank([first] + rest) == TagOf(first) + NonBlank(rest)
  {
    if rest == [] {
      NonBlankLast([], first);
      assert [] + [first] == [first] + rest;
    } else {
      var front, last := rest[..|rest|-1], rest[|rest|-1];
      assert [first] + rest == ([first] + front) + [last] && rest == front + [last];
      NonBlankFirst(first, front);
      NonBlankLast([first] + front, last);
      NonBlankLast(front, last);
    }
  }

  // ---------------------------------------------------------------- what trimming and parsing mean

  /** The white space of Unicode, by code point. */
  lemma WhiteSpaceIs(c: char)
    ensures IsSpace(c) <==> 9 <= c as int <= 13 || 0x2000 <= c as int <= 0x200A ||
                            c as int in {0x20, 0x85, 0xA0, 0x1680, 0x2028, 0x2029, 0x202F, 0x205F, 0x3000}
  {
  }

  ghost predicate AllSpace(s: string) {
    forall i :: 0 <= i < |s| ==> IsSpace(s[i])
  }

  lemma {:induction false} TrimLeftOf(left: string, rest: string)
    requires AllSpace(left) && (rest == "" || !IsSpace(rest[0]))
    ensures TrimLeft(left + rest) == rest
  {
    if left == "" {
      assert left + rest == rest;
    } else {
      assert (left + rest)[0] == left[0] && (left + rest)[1..] == left[1..] + rest;
      TrimLeftOf(left[1..], rest);
    }
  }

  lemma {:induction false} TrimRightOf(rest: string, right: string)
    requires AllSpace(right) && (rest == "" || !IsSpace(rest[|rest|-1]))
    ensures TrimRight(rest + right) == rest
  {
    if right == "" {
      assert rest + right == rest;
    } else {
      var s := rest + right;
      assert s[|s|-1] == right[|right|-1] && s[..|s|-1] == rest + right[..|right|-1];
      TrimRightOf(rest, right[..|right|-1]);
    }
  }

  /** Trimming takes off exactly the white space at both ends. */
  lemma TrimSpaceOf(left: string, core: string, right: string)
    requires AllSpace(left) && AllSpace(right) && IsTrimmed(core)
    ensures TrimSpace(left + core + right) == core
  {
    if core == "" {
      assert left + core + right == (left + right) + "";
      TrimLeftOf(left + right, "");
    } else {
      assert left + core + right == left + (core + right);
      TrimLeftOf(left, core + right);
      TrimRightOf(core, right);
    }
  }

  /** The keyword in any mixture of cases, with the two special letters that lower to its own. */
  ghost predicate SpellsSkip(s: string) {
    && |s| == 4
    && (s[0] == 's' || s[0] == 'S') && (s[1] == 'k' || s[1] == 'K' || s[1] == '\U{212A}')
    && (s[2] == 'i' || s[2] == 'I' || s[2] == '\U{130}') && (s[3] == 'p' || s[3] == 'P')
  }

  lemma IsSkipIff(s: string)
    ensures IsSkip(s) <==> SpellsSkip(s)
  {
    if |s| == 4 {
      LowerIs(s[0]);
      LowerIs(s[1]);
      LowerIs(s[2]);
      LowerIs(s[3]);
    }
  }

  lemma LowerIs(c: char)
    ensures Lower(c) == 's' <==> c == 's' || c == 'S'
    ensures Lower(c) == 'k' <==> c == 'k' || c == 'K' || c == '\U{212A}'
    ensures Lower(c) == 'i' <==> c == 'i' || c == 'I' || c == '\U{130}'
    ensures Lower(c) == 'p' <==> c == 'p' || c == 'P'
  {
  }

  /** What stands between two commas: white space, a trimmed text that may be empty, and white space. */
  datatype Piece = Piece(left: string, core: string, right: string) {
    ghost predicate Valid() {
      AllSpace(left) && AllSpace(right) && IsTrimmed(core) && ',' !in core
    }

    function Text(): string {
      left + core + right
    }
  }

  ghost predicate AllValid(pieces: seq<Piece>) {
    pieces != [] && forall i :: 0 <= i < |pieces| ==> pieces[i].Valid()
  }

  function TextOf(pieces: seq<Piece>): string
    requires pieces != []
  {
    if |pieces| == 1 then pieces[0].Text() else pieces[0].Text() + "," + TextOf(pieces[1..])
  }

  /** The texts that are not empty, in order. */
  function Cores(pieces: seq<Piece>): seq<string> {
    if pieces == [] then []
    else (if pieces[0].core == "" then [] else [pieces[0].core]) + Cores(pieces[1..])
  }

  lemma PieceIs(p: Piece)
    requires p.Valid()
    ensures ',' !in p.Text() && TrimSpace(p.Text()) == p.core
  {
    assert !IsSpace(',');
    TrimSpaceOf(p.left, p.core, p.right);
  }

  lemma {:induction false} PiecesSplit(pieces: seq<Piece>)
    requires AllValid(pieces)
    ensures NonBlank(Split(TextOf(pieces))) == Cores(pieces)
  {
    var p := pieces[0];
    PieceIs(p);
    if |pieces| == 1 {
      SplitNoComma(p.Text());
      NonBlankFirst(p.Text(), []);
      assert [p.Text()] + [] == [p.Text()];
    } else {
      PiecesSplit(pieces[1..]);
      SplitAtComma(p.Text(), TextOf(pieces[1..]));
      NonBlankFirst(p.Text(), Split(TextOf(pieces[1..])));
    }
  }

  /** White space in front of the text belongs to the first piece, and white space behind it to the last. */
  lemma SpaceInFrontOf(c: char, s: string)
    requires IsSpace(c)
    ensures NonBlank(Split([c] + s)) == NonBlank(Split(s))
  {
    var pieces := Split(s);
    assert ([c] + s)[1..] == s && c != ',';
    assert Split([c] + s) == [[c] + pieces[0]] + pieces[1..];
    assert ([c] + pieces[0])[1..] == pieces[0];
    assert TrimLeft([c] + pieces[0]) == TrimLeft(pieces[0]);
    NonBlankFirst([c] + pieces[0], pieces[1..]);
    NonBlankFirst(pieces[0], pieces[1..]);
    assert pieces == [pieces[0]] + pieces[1..];
  }

  ghost predicate SamePieces(s: string, t: string) {
    NonBlank(Split(s)) == NonBlank(Split(t))
  }

  lemma SamePiecesJoin(s: string, t: string, u: string)
    requires SamePieces(s, t) && SamePieces(t, u)
    ensures SamePieces(s, u)
  {
  }

  lemma SpaceOff(whole: string, c: char, s: string)
    requires IsSpace(c) && whole == [c] + s
    ensures SamePieces(whole, s)
  {
    SpaceInFrontOf(c, s);
  }

  lemma FirstOff(left: string, s: string)
    requires left != ""
    ensures left + s == [left[0]] + (left[1..] + s)
  {
  }

  lemma {:induction false} SpacesInFront(left: string, s: string)
    requires AllSpace(left)
    ensures SamePieces(left + s, s)
  {
    if left == "" {
      assert left + s == s;
    } else {
      SpacesInFront(left[1..], s);
      FirstOff(left, s);
      SpaceOff(left + s, left[0], left[1..] + s);
      SamePiecesJoin(left + s, left[1..] + s, s);
    }
  }

  function WithLast(pieces: seq<string>, c: char): seq<string>
    requires pieces != []
  {
    pieces[..|pieces|-1] + [pieces[|pieces|-1] + [c]]
  }

  lemma WithLastBehind(first: string, rest: seq<string>, c: char)
    ensures rest == [] ==> WithLast([first], c) == [first + [c]]
    ensures rest != [] ==> WithLast([first] + rest, c) == [first] + WithLast(rest, c)
  {
    if rest != [] {
      assert ([first] + rest)[..|rest|] == [first] + rest[..|rest|-1];
    }
  }

  /** A character that is no comma joins the last piece. */
  lemma {:induction false} SplitLast(s: string, c: char)
    requires c != ','
    ensures Split(s + [c]) == WithLast(Split(s), c)
  {
    if s == "" {
      assert s + [c] == [c];
      SplitNoComma([c]);
      WithLastBehind("", [], c);
    } else {
      var rest := Split(s[1..]);
      assert (s + [c])[0] == s[0] && (s + [c])[1..] == s[1..] + [c];
      SplitLast(s[1..], c);
      if s[0] == ',' {
        WithLastBehind("", rest, c);
      } else {
        LongerFirst([s[0]], rest, c);
      }
    }
  }

  lemma LongerFirst(head: string, rest: seq<string>, c: char)
    requires rest != []
    ensures var more := WithLast(rest, c); [head + more[0]] + more[1..] == WithLast([head + rest[0]] + rest[1..], c)
  {
    var first := head + rest[0];
    WithLastBehind(first, rest[1..], c);
    if |rest| == 1 {
      assert WithLast(rest, c) == [rest[0] + [c]];
      assert head + (rest[0] + [c]) == first + [c];
    } else {
      assert rest == [rest[0]] + rest[1..];
      WithLastBehind(rest[0], rest[1..], c);
      assert WithLast(rest, c)[1..] == WithLast(rest[1..], c);
    }
  }

  lemma TrimSpaceIgnoresLast(s: string, c: char)
    requires IsSpace(c)
    ensures TrimSpace(s + [c]) == TrimSpace(s)
  {
    var p := PieceOf(s);
    TrimSpaceOf(p.left, p.core, p.right);
    TrimSpaceOf(p.left, p.core, p.right + [c]);
    assert p.left + p.core + (p.right + [c]) == s + [c];
  }

  lemma SpaceBehind(s: string, c: char)
    requires IsSpace(c)
    ensures NonBlank(Split(s + [c])) == NonBlank(Split(s))
  {
    assert c != ',';
    SplitLast(s, c);
    LastIgnored(Split(s), c);
  }

  lemma LastIgnored(pieces: seq<string>, c: char)
    requires pieces != [] && IsSpace(c)
    ensures NonBlank(WithLast(pieces, c)) == NonBlank(pieces)
  {
    var front, last := pieces[..|pieces|-1], pieces[|pieces|-1];
    TrimSpaceIgnoresLast(last, c);
    NonBlankLast(front, last);
    NonBlankLast(front, last + [c]);
    assert pieces == front + [last];
  }

  lemma LastSpaceOff(whole: string, s: string, c: char)
    requires IsSpace(c) && whole == s + [c]
    ensures SamePieces(whole, s)
  {
    SpaceBehind(s, c);
  }

  lemma LastOff(s: string, right: string)
    requires right != ""
    ensures s + right == (s + right[..|right|-1]) + [right[|right|-1]]
  {
  }

  lemma {:induction false} SpacesBehind(s: string, right: string)
    requires AllSpace(right)
    ensures SamePieces(s + right, s)
  {
    if right == "" {
      assert s + right == s;
    } else {
      var front, c := right[..|right|-1], right[|right|-1];
      SpacesBehind(s, front);
      LastOff(s, right);
      LastSpaceOff(s + right, s + front, c);
      SamePiecesJoin(s + right, s + front, s);
    }
  }

  /** The piece is the text, and valid if the text has no comma. */
  ghost predicate IsPieceOf(p: Piece, s: string) {
    && p.Text() == s && AllSpace(p.left) && AllSpace(p.right) && IsTrimmed(p.core)
    && (',' in p.core ==> ',' in s)
  }

  lemma SpaceJoinsLeft(c: char, s: string, p: Piece)
    requires IsSpace(c) && IsPieceOf(p, s)
    ensures IsPieceOf(p.(left := [c] + p.left), [c] + s)
  {
    assert ([c] + p.left) + p.core + p.right == [c] + (p.left + p.core + p.right);
  }

  lemma SpaceJoinsRight(s: string, c: char, p: Piece)
    requires IsSpace(c) && IsPieceOf(p, s)
    ensures IsPieceOf(p.(right := p.right + [c]), s + [c])
  {
    assert p.left + p.core + (p.right + [c]) == (p.left + p.core + p.right) + [c];
  }

  /** Every text is white space, a trimmed text and white space. */
  lemma {:induction false} PieceOf(s: string) returns (p: Piece)
    ensures IsPieceOf(p, s)
  {
    if s != "" && IsSpace(s[0]) {
      p := PieceOf(s[1..]);
      SpaceJoinsLeft(s[0], s[1..], p);
      p := p.(left := [s[0]] + p.left);
      assert [s[0]] + s[1..] == s;
    } else if s != "" && IsSpace(s[|s|-1]) {
      p := PieceOf(s[..|s|-1]);
      SpaceJoinsRight(s[..|s|-1], s[|s|-1], p);
      p := p.(right := p.right + [s[|s|-1]]);
      assert s[..|s|-1] + [s[|s|-1]] == s;
    } else {
      p := Piece("", s, "");
      assert p.Text() == s;
    }
  }

  lemma {:induction false} PiecesOf(text: string) returns (pieces: seq<Piece>)
    ensures AllValid(pieces) && TextOf(pieces) == text
    decreases |text|
  {
    if i :| 0 <= i < |text| && text[i] == ',' && ',' !in text[..i] {
      var first := PieceOf(text[..i]);
      var rest := PiecesOf(text[i+1..]);
      pieces := [first] + rest;
      assert pieces[1..] == rest;
      assert text == text[..i] + "," + text[i+1..];
    } else {
      NoFirstComma(text);
      var only := PieceOf(text);
      pieces := [only];
    }
  }

  lemma {:induction false} NoFirstComma(text: string)
    requires forall i :: 0 <= i < |text| && text[i] == ',' ==> ',' in text[..i]
    ensures ',' !in text
  {
    if ',' in text {
      var i :| 0 <= i < |text| && text[i] == ',';
      FirstComma(text, i);
    }
  }

  lemma {:induction false} FirstComma(text: string, n: nat)
    requires n < |text| && text[n] == ','
    ensures exists i :: 0 <= i < |text| && text[i] == ',' && ',' !in text[..i]
    decreases n
  {
    if ',' in text[..n] {
      var i :| 0 <= i < n && text[..n][i] == ',';
      FirstComma(text, i);
    }
  }

  lemma {:induction false} TrimKeepsCommas(s: string)
    ensures ',' in s ==> ',' in TrimSpace(s)
  {
    var p := PieceOf(s);
    TrimSpaceOf(p.left, p.core, p.right);
    assert !IsSpace(',');
  }

  /**
    What the parser yields for any text, given as pieces between commas: the texts of the pieces,
    trimmed, in order and without the empty ones; or no tags, when the only piece is the keyword.
   */
  lemma ParseIs(pieces: seq<Piece>)
    requires AllValid(pieces)
    ensures Parse(TextOf(pieces)) ==
            if |pieces| == 1 && SpellsSkip(pieces[0].core) then [] else Cores(pieces)
  {
    TrimmedPieces(pieces);
    OnlyPieceIsSkip(pieces);
  }

  lemma TrimmedPieces(pieces: seq<Piece>)
    requires AllValid(pieces)
    ensures NonBlank(Split(TrimSpace(TextOf(pieces)))) == Cores(pieces)
  {
    var p := PieceOf(TextOf(pieces));
    TrimSpaceOf(p.left, p.core, p.right);
    SpacesBehind(p.left + p.core, p.right);
    SpacesInFront(p.left, p.core);
    PiecesSplit(pieces);
  }

  lemma OnlyPieceIsSkip(pieces: seq<Piece>)
    requires AllValid(pieces)
    ensures IsSkip(TrimSpace(TextOf(pieces))) <==> |pieces| == 1 && SpellsSkip(pieces[0].core)
  {
    var text := TextOf(pieces);
    IsSkipIff(TrimSpace(text));
    if |pieces| == 1 {
      PieceIs(pieces[0]);
    } else {
      assert text[|pieces[0].Text()|] == ',';
      TrimKeepsCommas(text);
      NoCommaInSkip(TrimSpace(text));
    }
  }

  lemma NoCommaInSkip(s: string)
    ensures SpellsSkip(s) ==> ',' !in s
  {
  }

  // ---------------------------------------------------------------- printing and parsing again

  lemma TrimmedStays(s: string)
    requires IsTrimmed(s)
    ensures TrimSpace(s) == s
  {
  }

  /** Printing puts a comma and a blank between neighbours, and nothing else. */
  lemma {:induction false} JoinConcat(tags: seq<string>, more: seq<string>)
    requires tags != [] && more != []
    ensures Join(tags + more) == Join(tags) + ", " + Join(more)
    ensures Join([tags[0]]) == tags[0]
  {
    if |tags| == 1 {
      assert (tags + more)[1..] == more;
    } else {
      assert (tags + more)[1..] == tags[1..] + more;
      JoinConcat(tags[1..], more);
    }
  }

  lemma {:induction false} JoinTrimmed(tags: seq<string>)
    requires forall i :: 0 <= i < |tags| ==> IsTag(tags[i])
    ensures IsTrimmed(Join(tags))
    ensures tags != [] ==> Join(tags) != ""
  {
    if |tags| > 1 {
      JoinTrimmed(tags[1..]);
      var rest := Join(tags[1..]);
      var s := tags[0] + ", " + rest;
      assert s[|s|-1] == rest[|rest|-1];
    }
  }

  lemma FirstTag(tag: string, rest: string)
    requires IsTag(tag)
    ensures NonBlank(Split(tag + ", " + rest)) == [tag] + NonBlank(Split(rest))
  {
    TrimmedStays(tag);
    assert tag + ", " + rest == tag + "," + (" " + rest);
    SplitAtComma(tag, " " + rest);
    NonBlankFirst(tag, Split(" " + rest));
    SpaceInFrontOf(' ', rest);
  }

  lemma OnlyTag(tag: string)
    requires IsTag(tag)
    ensures NonBlank(Split(tag)) == [tag]
  {
    TrimmedStays(tag);
    SplitNoComma(tag);
    NonBlankFirst(tag, []);
    assert [tag] + [] == [tag];
  }

  lemma {:induction false} JoinSplits(tags: seq<string>)
    requires forall i :: 0 <= i < |tags| ==> IsTag(tags[i])
    ensures NonBlank(Split(Join(tags))) == tags
  {
    if tags == [] {
      assert NonBlank([""]) == NonBlank([]);
    } else if |tags| == 1 {
      OnlyTag(tags[0]);
    } else {
      FirstTag(tags[0], Join(tags[1..]));
      JoinSplits(tags[1..]);
    }
  }

  /**
    The round trip: what the parser yields, printed and parsed again, is unchanged, except exactly
    when it is the single tag "skip" in some mixture of cases, which then reads as no tags at all.
   */
  lemma PrintAndParse(tags: seq<string>)
    requires forall i :: 0 <= i < |tags| ==> IsTag(tags[i])
    ensures Parse(Join(tags)) == tags <==> !(|tags| == 1 && IsSkip(tags[0]))
  {
    JoinTrimmed(tags);
    TrimmedStays(Join(tags));
    JoinSplits(tags);
    assert Parse(Join(tags)) == if IsSkip(Join(tags)) then [] else tags;
    if |tags| > 1 { SeveralAreNotSkip(tags); }
  }

  /** The comma between two tags keeps the text from being the keyword. */
  lemma SeveralAreNotSkip(tags: seq<string>)
    requires |tags| > 1
    ensures !IsSkip(Join(tags))
  {
    var s := Join(tags);
    assert s[|tags[0]|] == ',';
    assert Lower(',') == ',';
  }

  lemma ParsePrintParse(text: string)
    ensures Parse(Join(Parse(text))) == Parse(text) <==> !(|Parse(text)| == 1 && IsSkip(Parse(text)[0]))
  {
    ParseYieldsTags(text);
    PrintAndParse(Parse(text));
  }

  /** The exception is reachable: a comma behind the keyword turns it into a tag. */
  lemma SkipCanBeATag(skip: string)
    requires IsTag(skip) && IsSkip(skip)
    ensures Parse(skip + ",") == [skip] && Parse(Join([skip])) == []
  {
    var text := skip + ",";
    assert !IsSpace(',');
    assert text[0] == skip[0] && text[|text|-1] == ',';
    TrimmedStays(text);
    TrimmedStays(skip);
    assert text == skip + "," + "";
    SplitAtComma(skip, "");
    NonBlankFirst(skip, [""]);
    assert NonBlank([""]) == NonBlank([]);
  }
}
