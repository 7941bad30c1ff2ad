/** The cloud migration guard: `normal_sql` blanks quoted and commented text, and
    `check_transaction_control` looks for transaction control in what is left. */
module SqlScanner {
  import opened Basics

  datatype State = Normal | LineComment | BlockComment | SingleQuote | EscapeQuote | DoubleQuote | DollarQuote

  datatype Unsafe =
    | NulByte | MetaCommand | AmbiguousBackslash | Unterminated(state: State)
    | TransactionStart(word: string) | TransactionControl | ReleaseSavepoint | CharacteristicOverride

  /** The variables of the scanning loop. */
  datatype Scan = Scan(index: nat, state: State, dollar: string, depth: nat, output: string)

  const START := Scan(0, Normal, "", 0, "")

  // ---------- characters ----------

  predicate Letter(c: char) { 'a' <= c <= 'z' || 'A' <= c <= 'Z' }

  predicate Digit(c: char) { '0' <= c <= '9' }

  /** `identifier_continuation`: beyond ASCII everything continues an identifier. */
  predicate Continues(c: char) { Letter(c) || Digit(c) || c == '_' || c == '$' || c as int >= 128 }

  predicate TagStart(c: char) { Letter(c) || c == '_' }

  predicate TagChar(c: char) { TagStart(c) || Digit(c) }

  function Blank(c: char): char { if c == '\n' then '\n' else ' ' }

  function Spaces(n: nat): string { seq(n, _ => ' ') }

  predicate At(text: string, i: nat, x: char, y: char) {
    i + 1 < |text| && text[i] == x && text[i + 1] == y
  }

  /** Where a run of tag characters ends. */
  function TagRun(text: string, i: nat): (k: nat)
    requires i <= |text|
    ensures i <= k <= |text| && (k < |text| ==> !TagChar(text[k])) && forall j | i <= j < k :: TagChar(text[j])
    decreases |text| - i
  {
    if i < |text| && TagChar(text[i]) then TagRun(text, i + 1) else i
  }

  /** The end of the dollar-quote tag that starts at `i`. */
  function TagEnd(text: string, i: nat): (end: Option<nat>)
    requires i < |text| && text[i] == '$'
    ensures end.Some? ==> i + 2 <= end.value <= |text| && text[end.value - 1] == '$'
    ensures end.Some? ==> forall j | i < j < end.value - 1 :: TagChar(text[j])
  {
    if i + 1 < |text| && text[i + 1] == '$' then Some(i + 2)
    else if i + 1 < |text| && TagStart(text[i + 1]) then
      var k := TagRun(text, i + 2);
      if k < |text| && text[k] == '$' then Some(k + 1) else None
    else None
  }

  /** An E that does not continue an identifier makes the quote an escape string. */
  predicate EscapePrefix(text: string, i: nat)
    requires i < |text|
  {
    && i > 0 && (text[i - 1] == 'E' || text[i - 1] == 'e')
    && (i < 2 || !Continues(text[i - 2]))
  }

  // ---------- one turn of the loop ----------

  /** A dollar quote has its tag, a block comment its depth. */
  predicate Sane(s: Scan) {
    && (s.state == DollarQuote ==> s.dollar != [] && forall c | c in s.dollar :: TagChar(c) || c == '$')
    && (s.state == BlockComment ==> s.depth >= 1)
  }

  type Turn = Result<Scan, Unsafe>

  function Skip(s: Scan, n: nat, state: State): Scan {
    s.(index := s.index + n, state := state, output := s.output + Spaces(n))
  }

  /** Blanks one character. */
  function Dim(text: string, s: Scan, state: State): Scan
    requires s.index < |text|
  {
    s.(index := s.index + 1, state := state, output := s.output + [Blank(text[s.index])])
  }

  function NormalTurn(text: string, s: Scan): Turn
    requires s.index < |text|
  {
    var c := text[s.index];
    if At(text, s.index, '-', '-') then Ok(Skip(s, 2, LineComment))
    else if At(text, s.index, '/', '*') then Ok(Skip(s, 2, BlockComment).(depth := 1))
    else if c == '\'' then Ok(Skip(s, 1, if EscapePrefix(text, s.index) then EscapeQuote else SingleQuote))
    else if c == '"' then Ok(Skip(s, 1, DoubleQuote))
    else if c == '$' && TagEnd(text, s.index).Some? && !(s.index > 0 && Continues(text[s.index - 1])) then
      var end := TagEnd(text, s.index).value;
      Ok(Skip(s, end - s.index, DollarQuote).(dollar := text[s.index..end]))
    else if c == '\\' then Err(MetaCommand)
    else Ok(s.(index := s.index + 1, output := s.output + [c]))
  }

  function BlockTurn(text: string, s: Scan): Turn
    requires s.index < |text| && s.depth >= 1
  {
    if At(text, s.index, '/', '*') then Ok(Skip(s, 2, BlockComment).(depth := s.depth + 1))
    else if At(text, s.index, '*', '/') then
      Ok(Skip(s, 2, if s.depth == 1 then Normal else BlockComment).(depth := s.depth - 1))
    else Ok(Dim(text, s, BlockComment))
  }

  function QuoteTurn(text: string, s: Scan, quote: char): Turn
    requires s.index < |text|
  {
    if At(text, s.index, quote, quote) then Ok(Skip(s, 2, s.state))
    else Ok(Dim(text, s, if text[s.index] == quote then Normal else s.state))
  }

  function EscapeTurn(text: string, s: Scan): Turn
    requires s.index < |text|
  {
    if text[s.index] == '\\' then
      if s.index + 1 >= |text| then Err(Unterminated(EscapeQuote))
      else Ok(s.(index := s.index + 2, output := s.output + [' ', Blank(text[s.index + 1])]))
    else QuoteTurn(text, s, '\'')
  }

  predicate StartsWith(text: string, i: nat, tag: string) {
    i + |tag| <= |text| && text[i..i + |tag|] == tag
  }

  function DollarTurn(text: string, s: Scan): Turn
    requires s.index < |text|
  {
    if StartsWith(text, s.index, s.dollar) then Ok(Skip(s, |s.dollar|, Normal)) else Ok(Dim(text, s, DollarQuote))
  }

  function TurnOf(text: string, s: Scan): (t: Turn)
    requires s.index < |text| && Sane(s)
    ensures t.Ok? ==> s.index < t.value.index <= |text| && Sane(t.value)
  {
    match s.state
    case Normal => NormalTurn(text, s)
    case LineComment => Ok(Dim(text, s, if text[s.index] == '\n' then Normal else LineComment))
    case BlockComment => BlockTurn(text, s)
    case SingleQuote => if text[s.index] == '\\' then Err(AmbiguousBackslash) else QuoteTurn(text, s, '\'')
    case EscapeQuote => EscapeTurn(text, s)
    case DoubleQuote => QuoteTurn(text, s, '"')
    case DollarQuote => DollarTurn(text, s)
  }

  /** The loop from `s` to the end of the text. */
  function Scanned(text: string, s: Scan): (t: Turn)
    requires s.index <= |text| && Sane(s)
    ensures t.Ok? ==> t.value.index == |text| && Sane(t.value)
    decreases |text| - s.index
  {
    if s.index == |text| then Ok(s)
    else match TurnOf(text, s)
      case Err(reason) => Err(reason)
      case Ok(next) => Scanned(text, next)
  }

  predicate Finished(state: State) { state == Normal || state == LineComment }

  function NormalSql(text: string): Result<string, Unsafe> {
    if '\0' in text then Err(NulByte)
    else match Scanned(text, START)
      case Err(reason) => Err(reason)
      case Ok(s) => if Finished(s.state) then Ok(s.output) else Err(Unterminated(s.state))
  }

  /** The loop passes through `s`. */
  ghost predicate Passes(text: string, s: Scan) {
    s.index <= |text| && Sane(s) && Scanned(text, START) == Scanned(text, s)
  }

  lemma PassesOn(text: string, s: Scan)
    requires Passes(text, s) && s.index < |text|
    ensures TurnOf(text, s).Ok? ==> Passes(text, TurnOf(text, s).value)
    ensures TurnOf(text, s).Err? ==> Scanned(text, START) == TurnOf(text, s)
  {
  }

  /** The first block of the loop: outside quotes and comments. */
  method ScanNormal(text: string, s: Scan) returns (turn: Turn)
    requires s.index < |text| && s.state == Normal
    ensures turn == NormalTurn(text, s)
  {
    var index, c := s.index, text[s.index];
    if At(text, index, '-', '-') {
      return Ok(s.(index := index + 2, state := LineComment, output := s.output + Spaces(2)));
    }
    if At(text, index, '/', '*') {
      return Ok(s.(index := index + 2, state := BlockComment, depth := 1, output := s.output + Spaces(2)));
    }
    if c == '\'' {
      var state := if EscapePrefix(text, index) then EscapeQuote else SingleQuote;
      return Ok(s.(index := index + 1, state := state, output := s.output + Spaces(1)));
    }
    if c == '"' {
      return Ok(s.(index := index + 1, state := DoubleQuote, output := s.output + Spaces(1)));
    }
    if c == '$' {
      var end, afterIdentifier := TagEnd(text, index), index > 0 && Continues(text[index - 1]);
      if end.Some? && !afterIdentifier {
        var dollar := text[index..end.value];
        return Ok(s.(index := end.value, state := DollarQuote, dollar := dollar, output := s.output + Spaces(|dollar|)));
      }
    }
    if c == '\\' {
      return Err(MetaCommand);
    }
    turn := Ok(s.(index := index + 1, output := s.output + [c]));
  }

  /** `normal_sql`: the loop over index, state, tag, comment depth and output. */
  method BlankQuoted(text: string) returns (result: Result<string, Unsafe>)
    ensures result == NormalSql(text)
  {
    if '\0' in text {
      return Err(NulByte);
    }
    var index: nat, state, dollar, depth: nat, output := 0, Normal, "", 0, "";
    while index < |text|
      invariant Passes(text, Scan(index, state, dollar, depth, output))
      decreases |text| - index
    {
      var s := Scan(index, state, dollar, depth, output);
      PassesOn(text, s);
      var c := text[index];
      match state {
        case Normal =>
          var turn := ScanNormal(text, s);
          if turn.Err? {
            return Err(turn.error);
          }
          index, state, dollar, depth, output :=
            turn.value.index, turn.value.state, turn.value.dollar, turn.value.depth, turn.value.output;
        case LineComment =>
          state := if c == '\n' then Normal else LineComment;
          index, output := index + 1, output + [Blank(c)];
        case BlockComment =>
          if At(text, index, '/', '*') {
            index, depth, output := index + 2, depth + 1, output + Spaces(2);
          } else if At(text, index, '*', '/') {
            index, depth, output := index + 2, depth - 1, output + Spaces(2);
            if depth == 0 {
              state := Normal;
            }
          } else {
            index, output := index + 1, output + [Blank(c)];
          }
        case SingleQuote =>
          if c == '\\' {
            return Err(AmbiguousBackslash);
          }
          if At(text, index, '\'', '\'') {
            index, output := index + 2, output + Spaces(2);
          } else {
            index, output := index + 1, output + [Blank(c)];
            if c == '\'' {
              state := Normal;
            }
          }
        case EscapeQuote =>
          if c == '\\' {
            if index + 1 >= |text| {
              return Err(Unterminated(EscapeQuote));
            }
            index, output := index + 2, output + [' ', Blank(text[index + 1])];
          } else if At(text, index, '\'', '\'') {
            index, output := index + 2, output + Spaces(2);
          } else {
            index, output := index + 1, output + [Blank(c)];
            if c == '\'' {
              state := Normal;
            }
          }
        case DoubleQuote =>
          if At(text, index, '"', '"') {
            index, output := index + 2, output + Spaces(2);
          } else {
            index, output := index + 1, output + [Blank(c)];
            if c == '"' {
              state := Normal;
            }
          }
        case DollarQuote =>
          if StartsWith(text, index, dollar) {
            index, state, output := index + |dollar|, Normal, output + Spaces(|dollar|);
          } else {
            index, output := index + 1, output + [Blank(c)];
          }
      }
      assert TurnOf(text, s) == Ok(Scan(index, state, dollar, depth, output));
    }
    result := if Finished(state) then Ok(output) else Err(Unterminated(state));
  }

  // ---------- layout is kept ----------

  /** Every character is kept or blanked, and line breaks stay where they were. */
  ghost predicate Aligned(text: string, output: string) {
    && |output| <= |text|
    && forall i | 0 <= i < |output| :: output[i] == text[i] || output[i] == Blank(text[i])
  }

  lemma NormalAligned(text: string, s: Scan)
    requires s.index < |text| && |s.output| == s.index && Aligned(text, s.output) && NormalTurn(text, s).Ok?
    ensures var n := NormalTurn(text, s).value; |n.output| == n.index && Aligned(text, n.output)
  {
  }

  lemma TurnAligned(text: string, s: Scan)
    requires s.index < |text| && Sane(s) && |s.output| == s.index && Aligned(text, s.output) && TurnOf(text, s).Ok?
    ensures var n := TurnOf(text, s).value; |n.output| == n.index && Aligned(text, n.output)
  {
    if s.state == Normal {
      NormalAligned(text, s);
    } else if s.state == DollarQuote && StartsWith(text, s.index, s.dollar) {
      forall i | s.index <= i < s.index + |s.dollar| ensures Blank(text[i]) == ' ' {
        assert text[i] == s.dollar[i - s.index] && s.dollar[i - s.index] in s.dollar;
      }
    }
  }

  lemma {:induction false} ScannedAligned(text: string, s: Scan)
    requires s.index <= |text| && Sane(s) && |s.output| == s.index && Aligned(text, s.output) && Scanned(text, s).Ok?
    ensures |Scanned(text, s).value.output| == |text| && Aligned(text, Scanned(text, s).value.output)
    decreases |text| - s.index
  {
    if s.index < |text| {
      TurnAligned(text, s);
      ScannedAligned(text, TurnOf(text, s).value);
    }
  }

  /** The blanked text has the length of the original and its line breaks, and differs from it
      only by blanks. */
  lemma LayoutIsKept(text: string)
    requires NormalSql(text).Ok?
    ensures var out := NormalSql(text).value;
      && |out| == |text|
      && (forall i | 0 <= i < |text| :: out[i] == '\n' <==> text[i] == '\n')
      && (forall i | 0 <= i < |text| :: out[i] == text[i] || out[i] == ' ')
  {
    ScannedAligned(text, START);
  }

  // ---------- a text before a semicolon ----------

  lemma {:induction false} TagRunSame(a: string, b: string, i: nat)
    requires i <= |a|
    ensures TagRun(a + ";" + b, i) == TagRun(a, i)
    decreases |a| - i
  {
    if i < |a| {
      TagRunSame(a, b, i + 1);
      assert (a + ";" + b)[i] == a[i];
    } else {
      assert (a + ";" + b)[i] == ';';
    }
  }

  lemma TagEndSame(a: string, b: string, i: nat)
    requires i < |a| && a[i] == '$'
    ensures (a + ";" + b)[i] == '$' && TagEnd(a + ";" + b, i) == TagEnd(a, i)
  {
    var ab := a + ";" + b;
    assert ab[i] == a[i] && ab[i + 1] == if i + 1 < |a| then a[i + 1] else ';';
    if i + 1 < |a| && TagStart(a[i + 1]) {
      TagRunSame(a, b, i + 2);
      var k := TagRun(a, i + 2);
      assert ab[k] == if k < |a| then a[k] else ';';
    }
  }

  lemma NormalSame(a: string, b: string, s: Scan)
    requires s.index < |a| && NormalTurn(a, s).Ok?
    ensures NormalTurn(a + ";" + b, s) == NormalTurn(a, s)
  {
    var ab := a + ";" + b;
    assert forall i | 0 <= i < |a| :: ab[i] == a[i];
    assert ab[|a|] == ';';
    if a[s.index] == '$' {
      TagEndSame(a, b, s.index);
      if TagEnd(a, s.index).Some? {
        assert ab[s.index..TagEnd(a, s.index).value] == a[s.index..TagEnd(a, s.index).value];
      }
    }
  }

  lemma TagAhead(a: string, b: string, s: Scan)
    requires s.index < |a| && Sane(s) && s.state == DollarQuote
    ensures StartsWith(a + ";" + b, s.index, s.dollar) == StartsWith(a, s.index, s.dollar)
  {
    var ab, end := a + ";" + b, s.index + |s.dollar|;
    if end <= |a| {
      assert ab[s.index..end] == a[s.index..end];
    } else if end <= |ab| {
      var k := |a| - s.index;
      assert s.dollar[k] in s.dollar;
      assert ab[s.index..end][k] == ab[|a|] == ';';
      assert s.dollar[k] != ';';
    }
  }

  lemma DollarSame(a: string, b: string, s: Scan)
    requires s.index < |a| && Sane(s) && s.state == DollarQuote
    ensures DollarTurn(a + ";" + b, s) == DollarTurn(a, s)
  {
    TagAhead(a, b, s);
    assert (a + ";" + b)[s.index] == a[s.index];
  }

  /** A turn that succeeds inside `a` does not see what follows the semicolon. */
  lemma TurnSame(a: string, b: string, s: Scan)
    requires s.index < |a| && Sane(s) && TurnOf(a, s).Ok?
    ensures TurnOf(a + ";" + b, s) == TurnOf(a, s)
  {
    var ab := a + ";" + b;
    assert forall i | 0 <= i < |a| :: ab[i] == a[i];
    assert ab[|a|] == ';';
    if s.state == Normal {
      NormalSame(a, b, s);
    } else if s.state == DollarQuote {
      DollarSame(a, b, s);
    }
  }

  lemma {:induction false} ScannedSame(a: string, b: string, s: Scan)
    requires s.index <= |a| && Sane(s) && Scanned(a, s).Ok?
    ensures Scanned(a + ";" + b, s) == Scanned(a + ";" + b, Scanned(a, s).value)
    decreases |a| - s.index
  {
    if s.index < |a| {
      TurnSame(a, b, s);
      ScannedSame(a, b, TurnOf(a, s).value);
    }
  }

  // ---------- a text after a semicolon ----------

  /** `t` is `s` moved behind `p`; what the state does not use may differ. */
  ghost predicate Shifted(p: string, out: string, s: Scan, t: Scan) {
    && t.index == |p| + s.index && t.state == s.state && t.output == out + s.output
    && (s.state == DollarQuote ==> t.dollar == s.dollar) && (s.state == BlockComment ==> t.depth == s.depth)
  }

  ghost predicate ShiftedTurn(p: string, out: string, s: Turn, t: Turn) {
    match s
    case Err(reason) => t == Err(reason)
    case Ok(n) => t.Ok? && Shifted(p, out, n, t.value)
  }

  lemma {:induction false} TagRunShift(p: string, b: string, i: nat)
    requires i <= |b|
    ensures TagRun(p + b, |p| + i) == |p| + TagRun(b, i)
    decreases |b| - i
  {
    if i < |b| {
      assert (p + b)[|p| + i] == b[i];
      TagRunShift(p, b, i + 1);
    }
  }

  lemma TagEndShift(p: string, b: string, i: nat)
    requires i < |b| && b[i] == '$'
    ensures (p + b)[|p| + i] == '$'
    ensures TagEnd(p + b, |p| + i) == if TagEnd(b, i).Some? then Some(|p| + TagEnd(b, i).value) else None
  {
    assert forall k | 0 <= k < |b| :: (p + b)[|p| + k] == b[k];
    if i + 1 < |b| && TagStart(b[i + 1]) {
      TagRunShift(p, b, i + 2);
    }
  }

  /** The quote looks back at most two characters, and a semicolon before it never matters. */
  lemma EscapeShift(p: string, b: string, i: nat)
    requires p != "" && p[|p| - 1] == ';' && i < |b|
    ensures EscapePrefix(p + b, |p| + i) == EscapePrefix(b, i)
    ensures (i > 0 && Continues(b[i - 1])) == Continues((p + b)[|p| + i - 1])
  {
    assert forall k | 0 <= k < |b| :: (p + b)[|p| + k] == b[k];
    assert (p + b)[|p| - 1] == ';';
  }

  lemma TagTextShift(p: string, b: string, i: nat)
    requires i < |b| && b[i] == '$'
    ensures (p + b)[|p| + i] == '$'
    ensures TagEnd(b, i).None? ==> TagEnd(p + b, |p| + i).None?
    ensures TagEnd(b, i).Some? ==> TagEnd(p + b, |p| + i) == Some(|p| + TagEnd(b, i).value)
    ensures TagEnd(b, i).Some? ==> (p + b)[|p| + i..|p| + TagEnd(b, i).value] == b[i..TagEnd(b, i).value]
  {
    TagEndShift(p, b, i);
  }

  lemma DollarTagShift(p: string, b: string, out: string, s: Scan, t: Scan)
    requires p != "" && p[|p| - 1] == ';' && s.index < |b| && s.state == Normal && Shifted(p, out, s, t)
    requires b[s.index] == '$'
    ensures ShiftedTurn(p, out, NormalTurn(b, s), NormalTurn(p + b, t))
  {
    assert forall x: string :: out + (s.output + x) == (out + s.output) + x;
    TagTextShift(p, b, s.index);
    EscapeShift(p, b, s.index);
  }

  lemma NormalShift(p: string, b: string, out: string, s: Scan, t: Scan)
    requires p != "" && p[|p| - 1] == ';' && s.index < |b| && s.state == Normal && Shifted(p, out, s, t)
    ensures ShiftedTurn(p, out, NormalTurn(b, s), NormalTurn(p + b, t))
  {
    if b[s.index] == '$' {
      DollarTagShift(p, b, out, s, t);
    } else {
      EscapeShift(p, b, s.index);
      assert forall k | 0 <= k < |b| :: (p + b)[|p| + k] == b[k];
      assert forall x: string :: out + (s.output + x) == (out + s.output) + x;
    }
  }

  lemma CharShift(p: string, b: string, i: nat)
    requires i < |b|
    ensures (p + b)[|p| + i] == b[i]
    ensures forall x, y :: At(p + b, |p| + i, x, y) == At(b, i, x, y)
  {
  }

  /** Dimming or skipping in step keeps two scans in step. */
  lemma MoveShift(p: string, b: string, out: string, s: Scan, t: Scan, n: nat, state: State)
    requires s.index < |b| && Shifted(p, out, s, t)
    requires state == s.state || (state != DollarQuote && state != BlockComment)
    ensures Shifted(p, out, Skip(s, n, state), Skip(t, n, state))
    ensures Shifted(p, out, Dim(b, s, state), Dim(p + b, t, state))
  {
    CharShift(p, b, s.index);
    assert out + (s.output + Spaces(n)) == (out + s.output) + Spaces(n);
    var c := [Blank(b[s.index])];
    assert out + (s.output + c) == (out + s.output) + c;
  }

  lemma DollarShift(p: string, b: string, out: string, s: Scan, t: Scan)
    requires s.index < |b| && s.state == DollarQuote && Shifted(p, out, s, t)
    ensures ShiftedTurn(p, out, DollarTurn(b, s), DollarTurn(p + b, t))
  {
    MoveShift(p, b, out, s, t, |s.dollar|, Normal);
    MoveShift(p, b, out, s, t, 0, DollarQuote);
    if s.index + |s.dollar| <= |b| {
      assert (p + b)[t.index..t.index + |s.dollar|] == b[s.index..s.index + |s.dollar|];
    }
  }

  lemma BlockShift(p: string, b: string, out: string, s: Scan, t: Scan)
    requires s.index < |b| && s.state == BlockComment && s.depth >= 1 && t.depth >= 1 && Shifted(p, out, s, t)
    ensures ShiftedTurn(p, out, BlockTurn(b, s), BlockTurn(p + b, t))
  {
    CharShift(p, b, s.index);
    MoveShift(p, b, out, s, t, 2, BlockComment);
    MoveShift(p, b, out, s, t, 2, Normal);
  }

  lemma QuoteShift(p: string, b: string, out: string, s: Scan, t: Scan, quote: char)
    requires s.index < |b| && s.state != DollarQuote && s.state != BlockComment && Shifted(p, out, s, t)
    ensures ShiftedTurn(p, out, QuoteTurn(b, s, quote), QuoteTurn(p + b, t, quote))
  {
    CharShift(p, b, s.index);
    MoveShift(p, b, out, s, t, 2, s.state);
    MoveShift(p, b, out, s, t, 2, Normal);
  }

  lemma EscapeTurnShift(p: string, b: string, out: string, s: Scan, t: Scan)
    requires s.index < |b| && s.state == EscapeQuote && Shifted(p, out, s, t)
    ensures ShiftedTurn(p, out, EscapeTurn(b, s), EscapeTurn(p + b, t))
  {
    CharShift(p, b, s.index);
    if b[s.index] != '\\' {
      QuoteShift(p, b, out, s, t, '\'');
    } else if s.index + 1 < |b| {
      CharShift(p, b, s.index + 1);
      var c := [' ', Blank(b[s.index + 1])];
      assert out + (s.output + c) == (out + s.output) + c;
    }
  }

  lemma TurnShift(p: string, b: string, out: string, s: Scan, t: Scan)
    requires p != "" && p[|p| - 1] == ';' && s.index < |b| && Sane(s) && Sane(t) && Shifted(p, out, s, t)
    ensures ShiftedTurn(p, out, TurnOf(b, s), TurnOf(p + b, t))
  {
    CharShift(p, b, s.index);
    match s.state
    case Normal => NormalShift(p, b, out, s, t);
    case LineComment =>
      MoveShift(p, b, out, s, t, 0, Normal);
      MoveShift(p, b, out, s, t, 0, LineComment);
    case BlockComment => BlockShift(p, b, out, s, t);
    case SingleQuote => QuoteShift(p, b, out, s, t, '\'');
    case EscapeQuote => EscapeTurnShift(p, b, out, s, t);
    case DoubleQuote => QuoteShift(p, b, out, s, t, '"');
    case DollarQuote => DollarShift(p, b, out, s, t);
  }

  lemma {:induction false} ScannedShift(p: string, b: string, out: string, s: Scan, t: Scan)
    requires p != "" && p[|p| - 1] == ';' && s.index <= |b| && Sane(s) && Sane(t) && Shifted(p, out, s, t)
    ensures ShiftedTurn(p, out, Scanned(b, s), Scanned(p + b, t))
    decreases |b| - s.index
  {
    if s.index < |b| {
      TurnShift(p, b, out, s, t);
      if TurnOf(b, s).Ok? {
        ScannedShift(p, b, out, TurnOf(b, s).value, TurnOf(p + b, t).value);
      }
    }
  }

  // ---------- composition ----------

  /** The scan of the text succeeds and ends outside every quote and comment. */
  predicate EndsNormal(text: string) {
    '\0' !in text && Scanned(text, START).Ok? && Scanned(text, START).value.state == Normal
  }

  function Joined(x: Result<string, Unsafe>, y: Result<string, Unsafe>): Result<string, Unsafe> {
    if x.Err? then x else if y.Err? then y else Ok(x.value + ";" + y.value)
  }

  /** After a text that ends outside quotes and comments the semicolon starts a fresh scan. */
  lemma NormalSqlComposes(a: string, b: string)
    requires EndsNormal(a)
    ensures NormalSql(a + ";" + b) == Joined(NormalSql(a), NormalSql(b))
  {
    var ab, at := a + ";" + b, Scanned(a, START).value;
    ScannedSame(a, b, START);
    assert ab[|a|] == ';';
    var past := at.(index := |a| + 1, output := at.output + ";");
    assert TurnOf(ab, at) == Ok(past);
    assert ab == (a + ";") + b;
    assert past.output == past.output + START.output;
    ScannedShift(a + ";", b, past.output, START, past);
    assert '\0' in ab <==> '\0' in b;
  }

  // ---------- the checker ----------

  function Split(s: string): (parts: seq<string>)
    ensures parts != []
  {
    if s == "" then [""]
    else
      var rest := Split(s[1..]);
      if s[0] == ';' then [""] + rest else [[s[0]] + rest[0]] + rest[1..]
  }

  /** `str.upper` works character by character; the table is a parameter. */
  function Upper(s: string, table: char -> string): string {
    if s == "" then "" else table(s[0]) + Upper(s[1..], table)
  }

  function WordEnd(s: string, i: nat): (k: nat)
    requires i <= |s|
    ensures i <= k <= |s|
    decreases |s| - i
  {
    if i < |s| && (Letter(s[i]) || s[i] == '_') then WordEnd(s, i + 1) else i
  }

  /** The runs of letters and underscores. */
  function Words(s: string): seq<string>
    decreases |s|
  {
    if s == "" then []
    else
      var k := WordEnd(s, 0);
      if k == 0 then Words(s[1..]) else [s[..k]] + Words(s[k..])
  }

  const TRANSACTION_STARTS := {"ABORT", "BEGIN", "COMMIT", "END", "ROLLBACK", "SAVEPOINT"}

  predicate Begins(words: seq<string>, prefix: seq<string>) {
    |prefix| <= |words| && words[..|prefix|] == prefix
  }

  /** What is wrong with one statement. */
  function StatementError(words: seq<string>): Option<Unsafe> {
    if words == [] then None
    else if words[0] in TRANSACTION_STARTS then Some(TransactionStart(words[0]))
    else if Begins(words, ["START", "TRANSACTION"]) || Begins(words, ["PREPARE", "TRANSACTION"]) then
      Some(TransactionControl)
    else if Begins(words, ["RELEASE", "SAVEPOINT"]) then Some(ReleaseSavepoint)
    else if Begins(words, ["SET", "TRANSACTION"]) || Begins(words, ["SET", "SESSION", "CHARACTERISTICS", "AS"]) then
      Some(CharacteristicOverride)
    else None
  }

  function PartsError(parts: seq<string>, table: char -> string): Option<Unsafe> {
    if parts == [] then None
    else
      var e := StatementError(Words(Upper(parts[0], table)));
      if e.Some? then e else PartsError(parts[1..], table)
  }

  /** None when the migration is accepted. */
  function CheckError(text: string, table: char -> string): Option<Unsafe> {
    match NormalSql(text)
    case Err(reason) => Some(reason)
    case Ok(sql) => PartsError(Split(sql), table)
  }

  /** `check_transaction_control`: the first bad statement decides. */
  method CheckTransactionControl(text: string, table: char -> string) returns (error: Option<Unsafe>)
    ensures error == CheckError(text, table)
  {
    var sql := BlankQuoted(text);
    if sql.Err? {
      return Some(sql.error);
    }
    var parts := Split(sql.value);
    for i := 0 to |parts|
      invariant PartsError(parts, table) == PartsError(parts[i..], table)
    {
      assert parts[i..][0] == parts[i] && parts[i..][1..] == parts[i + 1..];
      var words := Words(Upper(parts[i], table));
      if words != [] {
        error := StatementError(words);
        if error.Some? {
          return;
        }
      }
    }
    error := None;
  }

  lemma {:induction false} SplitJoins(x: string, y: string)
    ensures Split(x + ";" + y) == Split(x) + Split(y)
  {
    if x == "" {
      assert x + ";" + y == ";" + y && (";" + y)[1..] == y;
    } else {
      assert (x + ";" + y)[1..] == x[1..] + ";" + y && (x + ";" + y)[0] == x[0];
      SplitJoins(x[1..], y);
    }
  }

  lemma {:induction false} PartsErrorJoins(a: seq<string>, b: seq<string>, table: char -> string)
    ensures PartsError(a + b, table) == if PartsError(a, table).Some? then PartsError(a, table) else PartsError(b, table)
  {
    if a == [] {
      assert a + b == b;
    } else {
      assert (a + b)[1..] == a[1..] + b;
      PartsErrorJoins(a[1..], b, table);
    }
  }

  /** Joining a migration that ends outside quotes and comments with any other is accepted
      exactly when both are accepted. */
  lemma AcceptedTogether(a: string, b: string, table: char -> string)
    requires EndsNormal(a)
    ensures CheckError(a + ";" + b, table).None? <==> CheckError(a, table).None? && CheckError(b, table).None?
  {
    NormalSqlComposes(a, b);
    if NormalSql(b).Ok? {
      SplitJoins(NormalSql(a).value, NormalSql(b).value);
      PartsErrorJoins(Split(NormalSql(a).value), Split(NormalSql(b).value), table);
    }
  }

  // ---------- why the condition is needed ----------

  lemma {:induction false} CommentDims(text: string, s: Scan)
    requires s.index <= |text| && s.state == LineComment && forall i | s.index <= i < |text| :: text[i] != '\n'
    ensures Scanned(text, s).Ok? && Scanned(text, s).value.state == LineComment
    ensures Scanned(text, s).value.output == s.output + Spaces(|text| - s.index)
    decreases |text| - s.index
  {
    if s.index < |text| {
      var next := Dim(text, s, LineComment);
      CommentDims(text, next);
      assert [' '] + Spaces(|text| - next.index) == Spaces(|text| - s.index);
    } else {
      assert Spaces(0) == "";
    }
  }

  /** A text that ends in a line comment is accepted on its own, and hides whatever follows on
      that line: the rest is blanked unread. */
  lemma NoBreakAhead(a: string, b: string)
    requires '\n' !in b
    ensures forall i | |a| <= i < |a + ";" + b| :: (a + ";" + b)[i] != '\n'
  {
    var ab := a + ";" + b;
    forall i | |a| <= i < |ab| ensures ab[i] != '\n' {
      assert ab[i] == if i == |a| then ';' else b[i - |a| - 1];
      assert i > |a| ==> b[i - |a| - 1] in b;
    }
  }

  lemma NoNulAhead(a: string, b: string)
    requires '\0' !in a && '\0' !in b
    ensures '\0' !in a + ";" + b
  {
  }

  lemma LineCommentHides(a: string, b: string)
    requires '\0' !in a && '\0' !in b && '\n' !in b
    requires Scanned(a, START).Ok? && Scanned(a, START).value.state == LineComment
    ensures NormalSql(a).Ok?
    ensures NormalSql(a + ";" + b) == Ok(NormalSql(a).value + Spaces(|b| + 1))
  {
    NoNulAhead(a, b);
    NoBreakAhead(a, b);
    ScannedSame(a, b, START);
    CommentDims(a + ";" + b, Scanned(a, START).value);
  }

  lemma LoneBackslash()
    ensures NormalSql("\\").Err?
  {
    assert "\\"[0] == '\\';
  }

  /** An accepted text composes with every other across a semicolon exactly when it ends outside
      quotes and comments: only a line comment can be left open by an accepted text, and it hides
      what the other part would be refused for. */
  lemma ComposesExactly(a: string)
    requires NormalSql(a).Ok?
    ensures (forall b :: NormalSql(a + ";" + b) == Joined(NormalSql(a), NormalSql(b))) <==> EndsNormal(a)
  {
    if EndsNormal(a) {
      forall b ensures NormalSql(a + ";" + b) == Joined(NormalSql(a), NormalSql(b)) {
        NormalSqlComposes(a, b);
      }
    } else {
      LineCommentHides(a, "\\");
      LoneBackslash();
      assert NormalSql(a + ";" + "\\") != Joined(NormalSql(a), NormalSql("\\"));
    }
  }

  // ---------- blanks at the end change no statement ----------

  /** The parts with one more blank at the end of the last. */
  function Trailing(parts: seq<string>): seq<string>
    requires parts != []
  {
    parts[..|parts| - 1] + [parts[|parts| - 1] + " "]
  }

  lemma SplitHead(x: string)
    requires x != ""
    ensures Split(x) == if x[0] == ';' then [""] + Split(x[1..])
                        else [[x[0]] + Split(x[1..])[0]] + Split(x[1..])[1..]
  {
  }

  lemma TrailingHead(c: char, rest: seq<string>)
    requires rest != []
    ensures [""] + Trailing(rest) == Trailing([""] + rest)
    ensures [[c] + Trailing(rest)[0]] + Trailing(rest)[1..] == Trailing([[c] + rest[0]] + rest[1..])
  {
    if |rest| == 1 {
      assert [c] + (rest[0] + " ") == [c] + rest[0] + " ";
    }
  }

  lemma SplitTrailsOn(x: string)
    requires x != "" && Split(x[1..] + " ") == Trailing(Split(x[1..]))
    ensures Split(x + " ") == Trailing(Split(x))
  {
    assert (x + " ")[1..] == x[1..] + " " && (x + " ")[0] == x[0];
    SplitHead(x);
    SplitHead(x + " ");
    TrailingHead(x[0], Split(x[1..]));
  }

  lemma {:induction false} SplitTrails(x: string)
    ensures Split(x + " ") == Trailing(Split(x))
  {
    if x == "" {
      assert x + " " == " " && " "[1..] == "" && [' '] + "" == " ";
      assert Split(x) == [""] && Split(" ") == [" "];
    } else {
      SplitTrails(x[1..]);
      SplitTrailsOn(x);
    }
  }

  lemma {:induction false} UpperTrails(x: string, table: char -> string)
    requires table(' ') == " "
    ensures Upper(x + " ", table) == Upper(x, table) + " "
  {
    if x == "" {
      assert x + " " == " " && " "[1..] == "";
    } else {
      assert (x + " ")[1..] == x[1..] + " ";
      UpperTrails(x[1..], table);
    }
  }

  lemma {:induction false} WordEndTrails(x: string, i: nat)
    requires i <= |x|
    ensures WordEnd(x + " ", i) == WordEnd(x, i)
    decreases |x| - i
  {
    if i < |x| && (Letter(x[i]) || x[i] == '_') {
      WordEndTrails(x, i + 1);
    }
  }

  lemma {:induction false} WordsTrail(x: string)
    ensures Words(x + " ") == Words(x)
    decreases |x|
  {
    if x == "" {
      assert x + " " == " " && " "[1..] == "";
    } else {
      WordEndTrails(x, 0);
      var k := WordEnd(x, 0);
      if k == 0 {
        assert (x + " ")[1..] == x[1..] + " ";
        WordsTrail(x[1..]);
      } else {
        assert (x + " ")[..k] == x[..k] && (x + " ")[k..] == x[k..] + " ";
        WordsTrail(x[k..]);
      }
    }
  }

  lemma PartsErrorTrails(x: string, table: char -> string)
    requires table(' ') == " "
    ensures PartsError(Split(x + " "), table) == PartsError(Split(x), table)
  {
    var parts := Split(x);
    var init, last := parts[..|parts| - 1], parts[|parts| - 1];
    SplitTrails(x);
    assert parts == init + [last];
    PartsErrorJoins(init, [last], table);
    PartsErrorJoins(init, [last + " "], table);
    UpperTrails(last, table);
    WordsTrail(Upper(last, table));
    assert PartsError([last + " "], table) == PartsError([last], table);
  }

  /** When blanks stay blank in upper case, an accepted migration can be joined with every other
      without changing what is accepted exactly when it ends outside quotes and comments. */
  lemma AcceptedTogetherExactly(a: string, table: char -> string)
    requires CheckError(a, table).None? && table(' ') == " "
    ensures (forall b :: CheckError(a + ";" + b, table).None? <==> CheckError(b, table).None?) <==> EndsNormal(a)
  {
    if EndsNormal(a) {
      forall b ensures CheckError(a + ";" + b, table).None? <==> CheckError(b, table).None? {
        AcceptedTogether(a, b, table);
      }
    } else {
      LineCommentHides(a, "\\");
      LoneBackslash();
      var sql := NormalSql(a).value;
      assert sql + Spaces(2) == sql + " " + " ";
      PartsErrorTrails(sql, table);
      PartsErrorTrails(sql + " ", table);
      assert CheckError(a + ";" + "\\", table).None?;
    }
  }
}
