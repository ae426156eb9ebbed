/** `Chitin.parse_script`: the line filter, the block splitter and the
    `$k` substitution, over the script's lines as read from its file. */
module Script {
  import opened Base
  import opened Strings

  /** The exceptions `parse_script` and `attempt_special` can raise. */
  datatype Failure =
    | IOError(path: string)      // `open(path)` on a missing script
    | IndexError                 // `v_fields[2]` on a short directive
    | ValueError(text: string)   // `int(v_fields[1])`
    | KeyError(key: int)         // `input_map[i+1]`

  // ---- the line filter ----

  lemma StripShorter(s: string)
    ensures |Strip(s)| <= |s|
  {
  }

  /** `check_line(line)` */
  predicate CheckLine(line: string) {
    StripShorter(line);
    |Strip(line)| >= 2 && !(line[0] == '#' && line[1] != '@')
  }

  /** `[l.strip() for l in lines if check_line(l)]` */
  function ScriptLines(lines: seq<string>): seq<string> {
    if lines == [] then []
    else
      var n := |lines| - 1;
      ScriptLines(lines[..n]) + (if CheckLine(lines[n]) then [Strip(lines[n])] else [])
  }

  /** Every surviving line is the stripped form of a line of the file
      that passes the check, and is at least two characters long. */
  lemma {:induction false} ScriptLinesSound(lines: seq<string>, s: string) returns (k: nat)
    requires s in ScriptLines(lines)
    ensures k < |lines| && CheckLine(lines[k]) && Strip(lines[k]) == s && |s| >= 2
    decreases |lines|
  {
    var n := |lines| - 1;
    if s in ScriptLines(lines[..n]) {
      k := ScriptLinesSound(lines[..n], s);
      assert lines[..n][k] == lines[k];
    } else {
      k := n;
    }
  }

  /** Every line of the file that passes the check survives, stripped. */
  lemma {:induction false} ScriptLinesComplete(lines: seq<string>, k: nat)
    requires k < |lines| && CheckLine(lines[k])
    ensures Strip(lines[k]) in ScriptLines(lines)
    decreases |lines|
  {
    var n := |lines| - 1;
    if k < n {
      assert lines[..n][k] == lines[k];
      ScriptLinesComplete(lines[..n], k);
    }
  }

  // ---- the block splitter ----

  const StartTag := "#@CHITIN_START_BLOCK"
  const EndTag := "#@CHITIN_END_BLOCK"
  const InputTag := "#@CHITIN_INPUT"
  const MetaTag := "#@CHITIN_META"

  predicate IsDirective(line: string) {
    StartsWith(line, StartTag) || StartsWith(line, EndTag) || StartsWith(line, InputTag) || StartsWith(line, MetaTag)
  }

  /** `blocks`, `current_block`, `in_block`, `input_map` and `input_meta`. */
  datatype Splitter = Splitter(
    blocks: seq<seq<string>>,
    current: seq<string>,
    inBlock: bool,
    inputMap: map<int, string>,
    inputMeta: map<string, string>)

  const Initial := Splitter([], [], false, map[], map[])

  /** Python's `int(s)` on a string: surrounding whitespace, an optional
      sign and at least one decimal digit. */
  function ParseInt(s: string): Option<int> {
    var t := Strip(s);
    if |t| > 0 && (t[0] == '-' || t[0] == '+') then
      match Unsigned(t[1..])
      case Some(v) => var n: int := v; Some(if t[0] == '-' then -n else n)
      case None => None
    else Unsigned(t)
  }

  /** The value of a non-empty digit string. */
  function Unsigned(t: string): Option<nat> {
    if AllDigits(t) then Some(DigitsValue(t)) else None
  }

  predicate IsDigit(c: char) {
    '0' <= c <= '9'
  }

  predicate AllDigits(s: string) {
    |s| > 0 && forall k :: 0 <= k < |s| ==> IsDigit(s[k])
  }

  function DigitsValue(s: string): nat
    requires forall k :: 0 <= k < |s| ==> IsDigit(s[k])
  {
    if s == [] then 0
    else
      assert IsDigit(s[|s| - 1]);
      10 * DigitsValue(s[..|s| - 1]) + (s[|s| - 1] as int - '0' as int)
  }

  /** `str(n)` */
  function NatStr(n: nat): (r: string)
    ensures |r| >= 1 && forall k :: 0 <= k < |r| ==> IsDigit(r[k])
  {
    if n < 10 then [('0' as int + n) as char] else NatStr(n / 10) + [('0' as int + n % 10) as char]
  }

  lemma {:induction false} NatStrValue(n: nat)
    ensures DigitsValue(NatStr(n)) == n
  {
    if n >= 10 {
      NatStrValue(n / 10);
      var s := NatStr(n);
      assert s[..|s| - 1] == NatStr(n / 10);
    }
  }

  lemma TrimLeftKeeps(s: string)
    requires s == [] || !IsSpace(s[0])
    ensures TrimLeft(s) == s
  {
  }

  lemma TrimRightKeeps(s: string)
    requires s == [] || !IsSpace(s[|s| - 1])
    ensures TrimRight(s) == s
  {
  }

  /** `int(str(n)) == n` */
  lemma ParseIntNatStr(n: nat)
    ensures ParseInt(NatStr(n)) == Some(n)
  {
    NatStrValue(n);
    ParseIntDigits(NatStr(n));
  }

  /** `int(t)` of a digit string is its value. */
  lemma ParseIntDigits(t: string)
    requires |t| > 0 && forall k :: 0 <= k < |t| ==> IsDigit(t[k])
    ensures ParseInt(t) == Some(DigitsValue(t))
  {
    var d0, dn := t[0], t[|t| - 1];
    assert IsDigit(d0) && IsDigit(dn);
    TrimLeftKeeps(t);
    TrimRightKeeps(t);
    assert Strip(t) == t;
    assert Unsigned(t) == Some(DigitsValue(t));
  }

  /** One line of the splitting loop. */
  function StepLine(st: Splitter, line: string): Result<Splitter, Failure> {
    if StartsWith(line, StartTag) then
      Ok(if |st.current| > 0 then st.(blocks := st.blocks + [st.current], current := []) else st.(inBlock := true))
    else if StartsWith(line, EndTag) then
      Ok((if |st.current| > 0 then st.(blocks := st.blocks + [st.current], current := []) else st).(inBlock := false))
    else if StartsWith(line, InputTag) then
      var v := Split(line, ' ');
      if |v| < 3 then Err(IndexError)
      else match ParseInt(v[1])
        case None => Err(ValueError(v[1]))
        case Some(k) => Ok(st.(inputMap := st.inputMap[k := v[2]]))
    else if StartsWith(line, MetaTag) then
      var v := Split(line, ' ');
      if |v| < 3 then Err(IndexError) else Ok(st.(inputMeta := st.inputMeta[v[1] := v[2]]))
    else
      Ok(if st.inBlock then st.(current := st.current + [line]) else st.(blocks := st.blocks + [[line]]))
  }

  /** The splitting loop over `lines`, stopping at the first exception. */
  function SplitLines(lines: seq<string>): Result<Splitter, Failure> {
    if lines == [] then Ok(Initial)
    else match SplitLines(lines[..|lines| - 1])
      case Err(e) => Err(e)
      case Ok(st) => StepLine(st, lines[|lines| - 1])
  }

  /** An exception ends the loop: the later lines are never looked at. */
  lemma {:induction false} ErrSticks(lines: seq<string>, i: nat)
    requires i <= |lines| && SplitLines(lines[..i]).Err?
    ensures SplitLines(lines) == SplitLines(lines[..i])
    decreases |lines|
  {
    if i < |lines| {
      var n := |lines| - 1;
      assert lines[..n][..i] == lines[..i];
      ErrSticks(lines[..n], i);
    } else {
      assert lines[..i] == lines;
    }
  }

  /** The splitting loop of `parse_script`. */
  method SplitBlocks(lines: seq<string>) returns (r: Result<Splitter, Failure>)
    ensures r == SplitLines(lines)
  {
    var blocks: seq<seq<string>> := [];
    var current: seq<string> := [];
    var inBlock := false;
    var inputMap: map<int, string> := map[];
    var inputMeta: map<string, string> := map[];
    for i := 0 to |lines|
      invariant SplitLines(lines[..i]) == Ok(Splitter(blocks, current, inBlock, inputMap, inputMeta))
    {
      assert lines[..i + 1][..i] == lines[..i];
      var line := lines[i];
      if StartsWith(line, StartTag) {
        if |current| > 0 {
          blocks := blocks + [current];
          current := [];
        } else {
          inBlock := true;
        }
      } else if StartsWith(line, EndTag) {
        if |current| > 0 {
          blocks := blocks + [current];
          current := [];
        }
        inBlock := false;
      } else if StartsWith(line, InputTag) {
        var v := Split(line, ' ');
        if |v| < 3 {
          ErrSticks(lines, i + 1);
          return Err(IndexError);
        }
        var k := ParseInt(v[1]);
        if k.None? {
          ErrSticks(lines, i + 1);
          return Err(ValueError(v[1]));
        }
        inputMap := inputMap[k.value := v[2]];
      } else if StartsWith(line, MetaTag) {
        var v := Split(line, ' ');
        if |v| < 3 {
          ErrSticks(lines, i + 1);
          return Err(IndexError);
        }
        inputMeta := inputMeta[v[1] := v[2]];
      } else if inBlock {
        current := current + [line];
      } else {
        blocks := blocks + [[line]];
      }
    }
    assert lines[..|lines|] == lines;
    return Ok(Splitter(blocks, current, inBlock, inputMap, inputMeta));
  }

  /** The lines that are commands, in order. */
  function CommandLines(lines: seq<string>): seq<string> {
    if lines == [] then []
    else
      var n := |lines| - 1;
      CommandLines(lines[..n]) + (if IsDirective(lines[n]) then [] else [lines[n]])
  }

  function Flatten(blocks: seq<seq<string>>): seq<string> {
    if blocks == [] then [] else Flatten(blocks[..|blocks| - 1]) + blocks[|blocks| - 1]
  }

  lemma FlattenSnoc(blocks: seq<seq<string>>, b: seq<string>)
    ensures Flatten(blocks + [b]) == Flatten(blocks) + b
  {
    assert (blocks + [b])[..|blocks|] == blocks;
  }

  /** Every block is non-empty, and outside a block nothing is pending. */
  predicate Tidy(st: Splitter) {
    && (forall k :: 0 <= k < |st.blocks| ==> |st.blocks[k]| > 0)
    && (!st.inBlock ==> st.current == [])
  }

  /** The command lines the splitter holds: its blocks, then the open one. */
  function Pending(st: Splitter): seq<string> {
    Flatten(st.blocks) + st.current
  }

  /** Closing the open block: it joins the blocks and nothing is pending. */
  lemma CloseKeeps(st: Splitter)
    requires Tidy(st) && |st.current| > 0
    ensures var st' := st.(blocks := st.blocks + [st.current], current := []);
            Pending(st') == Pending(st) && forall k :: 0 <= k < |st'.blocks| ==> |st'.blocks[k]| > 0
  {
    FlattenSnoc(st.blocks, st.current);
  }

  lemma StepKeeps(st: Splitter, line: string)
    requires Tidy(st) && StepLine(st, line).Ok?
    ensures Tidy(StepLine(st, line).value)
    ensures Pending(StepLine(st, line).value) == Pending(st) + (if IsDirective(line) then [] else [line])
  {
    var st' := StepLine(st, line).value;
    if StartsWith(line, StartTag) || StartsWith(line, EndTag) {
      assert IsDirective(line);
      if |st.current| > 0 {
        CloseKeeps(st);
      }
    } else if StartsWith(line, InputTag) || StartsWith(line, MetaTag) {
      assert IsDirective(line);
      assert st'.blocks == st.blocks && st'.current == st.current && st'.inBlock == st.inBlock;
    } else {
      assert !IsDirective(line);
      if st.inBlock {
        assert st' == st.(current := st.current + [line]);
      } else {
        assert st' == st.(blocks := st.blocks + [[line]]);
        FlattenSnoc(st.blocks, [line]);
      }
    }
  }

  /** The splitter loses no command line and reorders none: the blocks,
      followed by the block still open, hold exactly the command lines;
      every block is non-empty; outside a block nothing is pending. */
  lemma {:induction false} SplitKeepsCommands(lines: seq<string>)
    requires SplitLines(lines).Ok?
    ensures Pending(SplitLines(lines).value) == CommandLines(lines)
    ensures Tidy(SplitLines(lines).value)
    decreases |lines|
  {
    if lines != [] {
      var n := |lines| - 1;
      SplitKeepsCommands(lines[..n]);
      StepKeeps(SplitLines(lines[..n]).value, lines[n]);
    }
  }

  /** Each line a block of its own. */
  function Singletons(lines: seq<string>): (r: seq<seq<string>>)
    ensures |r| == |lines| && forall k :: 0 <= k < |lines| ==> r[k] == [lines[k]]
  {
    seq(|lines|, k requires 0 <= k < |lines| => [lines[k]])
  }

  /** A script without directives runs each line as a command of its own. */
  lemma {:induction false} LoneLines(lines: seq<string>)
    requires forall k :: 0 <= k < |lines| ==> !IsDirective(lines[k])
    ensures SplitLines(lines) == Ok(Initial.(blocks := Singletons(lines)))
    decreases |lines|
  {
    if lines != [] {
      var n := |lines| - 1;
      LoneLines(lines[..n]);
      assert Singletons(lines) == Singletons(lines[..n]) + [[lines[n]]];
    }
  }

  /** Inside a block, command lines accumulate in the open block. */
  lemma {:induction false} OpenBlock(body: seq<string>)
    requires forall k :: 0 <= k < |body| ==> !IsDirective(body[k])
    ensures SplitLines([StartTag] + body) == Ok(Initial.(current := body, inBlock := true))
    decreases |body|
  {
    var lines := [StartTag] + body;
    if body == [] {
      assert lines[..0] == [];
      assert StartsWith(StartTag, StartTag);
    } else {
      var n := |body| - 1;
      assert lines[..|lines| - 1] == [StartTag] + body[..n];
      OpenBlock(body[..n]);
      assert body[..n] + [body[n]] == body;
    }
  }

  /** The lines between a start and an end directive become one block; a
      block that is still open when the script ends yields no block. */
  lemma ClosedBlock(body: seq<string>)
    requires |body| > 0 && forall k :: 0 <= k < |body| ==> !IsDirective(body[k])
    ensures SplitLines([StartTag] + body + [EndTag]) == Ok(Initial.(blocks := [body]))
    ensures SplitLines([StartTag] + body).value.blocks == []
  {
    OpenBlock(body);
    var lines := [StartTag] + body + [EndTag];
    assert lines[..|lines| - 1] == [StartTag] + body;
    assert lines[|lines| - 1] == EndTag;
    var st := Initial.(current := body, inBlock := true);
    StepEnd(st);
    assert SplitLines(lines) == StepLine(st, EndTag);
    assert st.blocks + [st.current] == [body];
  }

  lemma StepEnd(st: Splitter)
    requires |st.current| > 0
    ensures StepLine(st, EndTag) == Ok(st.(blocks := st.blocks + [st.current], current := [], inBlock := false))
  {
    assert !StartsWith(EndTag, StartTag);
    assert StartsWith(EndTag, EndTag);
  }

  // ---- substitution ----

  /** `"$" + str(i+1)` */
  function Placeholder(i: nat): string {
    "$" + NatStr(i + 1)
  }

  /** `for i, value in enumerate(tokens): cmd = cmd.replace("$" + str(i+1), value)`,
      as written: `$1` is replaced first, so with ten or more tokens it also
      eats the front of `$10`, `$11`, ... */
  function AscendingSubst(cmd: string, tokens: seq<string>): string {
    if tokens == [] then cmd
    else
      var n := |tokens| - 1;
      Replace(AscendingSubst(cmd, tokens[..n]), Placeholder(n), tokens[n])
  }

  lemma NoDollarNoPlaceholder(s: string, i: nat)
    requires '$' !in s
    ensures !Contains(s, Placeholder(i))
  {
    var p := Placeholder(i);
    forall j: nat | j <= |s|
      ensures !OccursAt(s, p, j)
    {
      if j + |p| <= |s| {
        assert s[j..j + |p|][0] != p[0];
      }
    }
  }

  lemma {:induction false} AscendingTenPrefix(tokens: seq<string>, n: nat)
    requires 1 <= n <= |tokens| && '$' !in tokens[0]
    ensures AscendingSubst("$10", tokens[..n]) == tokens[0] + "0"
    decreases n
  {
    var t := tokens[..n];
    assert t[..n - 1] == tokens[..n - 1];
    if n == 1 {
      assert t[..0] == [];
      assert Placeholder(0) == "$1";
      assert "$10"[..2] == "$1";
      assert Replace("0", "$1", tokens[0]) == "0";
    } else {
      AscendingTenPrefix(tokens, n - 1);
      assert '$' !in tokens[0] + "0";
      NoDollarNoPlaceholder(tokens[0] + "0", n - 1);
      ReplaceAbsent(tokens[0] + "0", Placeholder(n - 1), tokens[n - 1]);
    }
  }

  /** With ten or more tokens, `$10` becomes the first token followed by a
      literal `0`, not the tenth token. */
  lemma AscendingTen(tokens: seq<string>)
    requires |tokens| >= 10 && '$' !in tokens[0]
    ensures Placeholder(9) == "$10"
    ensures AscendingSubst(Placeholder(9), tokens) == tokens[0] + "0"
  {
    assert NatStr(10) == "10";
    AscendingTenPrefix(tokens, |tokens|);
    assert tokens[..|tokens|] == tokens;
  }

  /** A command without `$` is left as it is. */
  lemma {:induction false} AscendingNoDollar(cmd: string, tokens: seq<string>)
    requires '$' !in cmd
    ensures AscendingSubst(cmd, tokens) == cmd
    decreases |tokens|
  {
    if tokens != [] {
      var n := |tokens| - 1;
      AscendingNoDollar(cmd, tokens[..n]);
      NoDollarNoPlaceholder(cmd, n);
      ReplaceAbsent(cmd, Placeholder(n), tokens[n]);
    }
  }

  /** Two different one-digit placeholders do not occur in each other. */
  lemma SmallPlaceholderApart(i: nat, j: nat)
    requires i < 9 && j < 9 && i != j
    ensures !Contains(Placeholder(i), Placeholder(j))
  {
    var pi, pj := Placeholder(i), Placeholder(j);
    assert |pi| == 2 && |pj| == 2 && pi[1] != pj[1];
    forall q: nat | q <= |pi|
      ensures !OccursAt(pi, pj, q)
    {
      if q == 0 {
        assert pi[..2][1] != pj[1];
      }
    }
  }

  /** The placeholders below a one-digit one leave it alone. */
  lemma {:induction false} AscendingBelow(tokens: seq<string>, i: nat, n: nat)
    requires n <= i < 9 && n <= |tokens|
    ensures AscendingSubst(Placeholder(i), tokens[..n]) == Placeholder(i)
    decreases n
  {
    if n > 0 {
      assert tokens[..n][..n - 1] == tokens[..n - 1];
      AscendingBelow(tokens, i, n - 1);
      SmallPlaceholderApart(i, n - 1);
      ReplaceAbsent(Placeholder(i), Placeholder(n - 1), tokens[n - 1]);
    } else {
      assert tokens[..0] == [];
    }
  }

  lemma {:induction false} AscendingPicksPrefix(tokens: seq<string>, i: nat, n: nat)
    requires i < 9 && i < n <= |tokens| && '$' !in tokens[i]
    ensures AscendingSubst(Placeholder(i), tokens[..n]) == tokens[i]
    decreases n
  {
    assert tokens[..n][..n - 1] == tokens[..n - 1];
    if n - 1 == i {
      AscendingBelow(tokens, i, i);
      ReplaceWhole(Placeholder(i), tokens[i]);
    } else {
      AscendingPicksPrefix(tokens, i, n - 1);
      NoDollarNoPlaceholder(tokens[i], n - 1);
      ReplaceAbsent(tokens[i], Placeholder(n - 1), tokens[n - 1]);
    }
  }

  /** As written, `$1` ... `$9` each stand for their token, provided that
      token has no `$` of its own. */
  lemma AscendingPicks(tokens: seq<string>, i: nat)
    requires i < 9 && i < |tokens| && '$' !in tokens[i]
    ensures AscendingSubst(Placeholder(i), tokens) == tokens[i]
  {
    AscendingPicksPrefix(tokens, i, |tokens|);
    assert tokens[..|tokens|] == tokens;
  }

  /** As written, a token that itself holds a later placeholder is
      substituted again: `$1` with tokens `$2` and `x` becomes `x`;
      replacing the highest placeholder first gives `$2`. */
  lemma AscendingRescans()
    ensures AscendingSubst("$1", ["$2", "x"]) == "x"
    ensures Subst("$1", ["$2", "x"]) == "$2"
  {
    var t := ["$2", "x"];
    assert NatStr(1) == "1" && NatStr(2) == "2";
    assert Placeholder(0) == "$1" && Placeholder(1) == "$2";
    assert t[..1] == ["$2"] && t[..1][..0] == [];
    ReplaceWhole("$1", "$2");
    ReplaceWhole("$2", "x");
    assert Replace("$1", "$2", "x") == "$1" by {
      assert "$1"[..2] != "$2";
      assert "$1"[1..] == "1";
    }
  }

  /** The substitution with the highest placeholder first, so that `$1`
      can no longer match the front of `$10`: a reference for the order the
      placeholders evidently mean. `parse_script` itself is modelled with
      `AscendingSubst`, the order as written. */
  function Subst(cmd: string, tokens: seq<string>): string {
    Descending(cmd, tokens, |tokens|)
  }

  /** Replaces the placeholders of tokens `n-1`, ..., `0`, in that order. */
  function Descending(cmd: string, tokens: seq<string>, n: nat): string
    requires n <= |tokens|
    decreases n
  {
    if n == 0 then cmd else Descending(Replace(cmd, Placeholder(n - 1), tokens[n - 1]), tokens, n - 1)
  }

  /** A command without `$` is left as it is. */
  lemma {:induction false} DescendingNoDollar(cmd: string, tokens: seq<string>, n: nat)
    requires n <= |tokens| && '$' !in cmd
    ensures Descending(cmd, tokens, n) == cmd
    decreases n
  {
    if n > 0 {
      NoDollarNoPlaceholder(cmd, n - 1);
      ReplaceAbsent(cmd, Placeholder(n - 1), tokens[n - 1]);
      DescendingNoDollar(cmd, tokens, n - 1);
    }
  }

  lemma SubstNoDollar(cmd: string, tokens: seq<string>)
    requires '$' !in cmd
    ensures Subst(cmd, tokens) == cmd
  {
    DescendingNoDollar(cmd, tokens, |tokens|);
  }

  /** A prefix of a digit string is worth no more than the whole. */
  lemma {:induction false} DigitsPrefix(s: string, m: nat)
    requires m <= |s| && forall k :: 0 <= k < |s| ==> IsDigit(s[k])
    ensures DigitsValue(s[..m]) <= DigitsValue(s)
    decreases |s|
  {
    if m < |s| {
      var n := |s| - 1;
      DigitsPrefix(s[..n], m);
      assert s[..n][..m] == s[..m];
    } else {
      assert s[..m] == s;
    }
  }

  /** A higher placeholder never occurs inside a lower one. */
  lemma PlaceholderApart(i: nat, j: nat)
    requires i < j
    ensures !Contains(Placeholder(i), Placeholder(j))
  {
    var pi, pj := Placeholder(i), Placeholder(j);
    forall q: nat | q <= |pi|
      ensures !OccursAt(pi, pj, q)
    {
      if q + |pj| <= |pi| {
        if q > 0 {
          assert pi[q..q + |pj|][0] != pj[0];
        } else {
          var m := |NatStr(j + 1)|;
          DigitsPrefix(NatStr(i + 1), m);
          NatStrValue(i + 1);
          NatStrValue(j + 1);
          assert NatStr(i + 1)[..m] != NatStr(j + 1);
          assert pi[..|pj|][1..] == NatStr(i + 1)[..m];
          assert pj[1..] == NatStr(j + 1);
        }
      }
    }
  }

  lemma ReplaceWhole(s: string, rep: string)
    requires |s| > 0
    ensures Replace(s, s, rep) == rep
  {
    assert s[|s|..] == [];
  }

  lemma {:induction false} DescendingPicks(tokens: seq<string>, i: nat, n: nat)
    requires i < n <= |tokens| && forall k :: 0 <= k < |tokens| ==> '$' !in tokens[k]
    ensures Descending(Placeholder(i), tokens, n) == tokens[i]
    decreases n
  {
    if n - 1 == i {
      ReplaceWhole(Placeholder(i), tokens[i]);
      DescendingNoDollar(tokens[i], tokens, i);
    } else {
      PlaceholderApart(i, n - 1);
      ReplaceAbsent(Placeholder(i), Placeholder(n - 1), tokens[n - 1]);
      DescendingPicks(tokens, i, n - 1);
    }
  }

  /** `$k` stands for the `k`-th token, for every `k` up to the number of
      tokens, when no token itself contains `$`. */
  lemma SubstPicks(tokens: seq<string>, i: nat)
    requires i < |tokens| && forall k :: 0 <= k < |tokens| ==> '$' !in tokens[k]
    ensures Subst(Placeholder(i), tokens) == tokens[i]
  {
    DescendingPicks(tokens, i, |tokens|);
  }

  /** Token `i` has a `CHITIN_INPUT` name: `i+1 in input_map`. */
  predicate Named(inputMap: map<int, string>, i: nat) {
    i + 1 in inputMap
  }

  /** The script input name of token `i`: `input_map[i+1]`. */
  function InputName(inputMap: map<int, string>, i: nat): string
    requires Named(inputMap, i)
  {
    inputMap[i + 1]
  }

  /** The least `i < n` whose `"$" + str(i+1)` has no `CHITIN_INPUT` name. */
  function FirstMissing(inputMap: map<int, string>, n: nat, i: nat): (r: Option<nat>)
    requires i <= n
    ensures r.Some? ==> i <= r.value < n && !Named(inputMap, r.value)
    ensures r.Some? ==> forall j :: i <= j < r.value ==> Named(inputMap, j)
    ensures r.None? ==> forall j :: i <= j < n ==> Named(inputMap, j)
    decreases n - i
  {
    if i == n then None
    else if !Named(inputMap, i) then Some(i)
    else FirstMissing(inputMap, n, i + 1)
  }

  /** `meta["script"][input_map[i+1]] = value` for every token, later
      assignments winning. */
  function Assigned(inputMap: map<int, string>, tokens: seq<string>): map<string, string>
    requires forall j :: 0 <= j < |tokens| ==> Named(inputMap, j)
  {
    if tokens == [] then map[]
    else
      var n := |tokens| - 1;
      Assigned(inputMap, tokens[..n])[InputName(inputMap, n) := tokens[n]]
  }

  /** Each token is recorded under its input name, unless a later token
      has the same name. */
  lemma {:induction false} AssignedMeans(inputMap: map<int, string>, tokens: seq<string>, i: nat)
    requires forall j :: 0 <= j < |tokens| ==> Named(inputMap, j)
    requires i < |tokens| && forall j :: i < j < |tokens| ==> InputName(inputMap, j) != InputName(inputMap, i)
    ensures InputName(inputMap, i) in Assigned(inputMap, tokens)
    ensures Assigned(inputMap, tokens)[InputName(inputMap, i)] == tokens[i]
    decreases |tokens|
  {
    var n := |tokens| - 1;
    if i < n {
      assert tokens[..n][i] == tokens[i];
      AssignedMeans(inputMap, tokens[..n], i);
      assert InputName(inputMap, n) != InputName(inputMap, i);
    }
  }

  /** The inner loop of `parse_script` for one block: each token replaces
      its placeholder in ascending order, then is recorded under its input
      name in the script metadata; a token without an input name raises
      `KeyError` there. */
  method SubstituteBlock(cmd: string, tokens: seq<string>, inputMap: map<int, string>, meta: map<string, string>)
      returns (r: Result<(string, map<string, string>), Failure>)
    ensures FirstMissing(inputMap, |tokens|, 0).Some? <==> r.Err?
    ensures r.Err? ==> r.error == KeyError(FirstMissing(inputMap, |tokens|, 0).value + 1)
    ensures r.Ok? ==> r.value == (AscendingSubst(cmd, tokens), meta + Assigned(inputMap, tokens))
  {
    var m := meta;
    var c := cmd;
    for i := 0 to |tokens|
      invariant forall j :: 0 <= j < i ==> Named(inputMap, j)
      invariant m == meta + Assigned(inputMap, tokens[..i])
      invariant c == AscendingSubst(cmd, tokens[..i])
    {
      assert tokens[..i + 1][..i] == tokens[..i];
      c := Replace(c, Placeholder(i), tokens[i]);
      if !Named(inputMap, i) {
        assert FirstMissing(inputMap, |tokens|, 0) == Some(i) by {
          FirstMissingIs(inputMap, |tokens|, i);
        }
        return Err(KeyError(i + 1));
      }
      m := m[InputName(inputMap, i) := tokens[i]];
    }
    assert tokens[..|tokens|] == tokens;
    FirstMissingNone(inputMap, |tokens|);
    return Ok((c, m));
  }

  lemma FirstMissingIs(inputMap: map<int, string>, n: nat, i: nat)
    requires i < n && !Named(inputMap, i) && forall j :: 0 <= j < i ==> Named(inputMap, j)
    ensures FirstMissing(inputMap, n, 0) == Some(i)
  {
    var r := FirstMissing(inputMap, n, 0);
    assert r.Some?;
  }

  lemma FirstMissingNone(inputMap: map<int, string>, n: nat)
    requires forall j :: 0 <= j < n ==> Named(inputMap, j)
    ensures FirstMissing(inputMap, n, 0).None?
  {
  }

  /** The commands and the `meta["script"]` that `parse_script` derives
      from the split script: one substituted command per block, the
      script's path, each token under its input name, then the
      `CHITIN_META` entries. */
  function Fixed(st: Splitter, tokens: seq<string>, path: string): Result<(seq<string>, map<string, string>), Failure> {
    if |st.blocks| == 0 then Ok(([], map["path" := path] + st.inputMeta))
    else match FirstMissing(st.inputMap, |tokens|, 0)
      case Some(i) => Err(KeyError(i + 1))
      case None =>
        Ok((seq(|st.blocks|, k requires 0 <= k < |st.blocks| => AscendingSubst(JoinWith("; ", st.blocks[k]), tokens)),
            map["path" := path] + Assigned(st.inputMap, tokens) + st.inputMeta))
  }

  /** The block loop of `parse_script`. */
  method FixBlocks(st: Splitter, tokens: seq<string>, path: string) returns (r: Result<(seq<string>, map<string, string>), Failure>)
    ensures r == Fixed(st, tokens, path)
  {
    var m := map["path" := path];
    var fixed: seq<string> := [];
    for b := 0 to |st.blocks|
      invariant |fixed| == b
      invariant forall k :: 0 <= k < b ==> fixed[k] == AscendingSubst(JoinWith("; ", st.blocks[k]), tokens)
      invariant b == 0 ==> m == map["path" := path]
      invariant b > 0 ==> FirstMissing(st.inputMap, |tokens|, 0).None?
      invariant b > 0 ==> m == map["path" := path] + Assigned(st.inputMap, tokens)
    {
      var x := SubstituteBlock(JoinWith("; ", st.blocks[b]), tokens, st.inputMap, m);
      if x.Err? {
        return Err(x.error);
      }
      fixed := fixed + [x.value.0];
      m := x.value.1;
      assert m == map["path" := path] + Assigned(st.inputMap, tokens);
    }
    m := m + st.inputMeta;
    if |st.blocks| > 0 {
      assert fixed == seq(|st.blocks|, k requires 0 <= k < |st.blocks| => AscendingSubst(JoinWith("; ", st.blocks[k]), tokens));
    }
    return Ok((fixed, m));
  }

  /** What `parse_script(path, *tokens)` returns and the `meta["script"]`
      it merges into `self.meta`, for the script's lines. */
  function ParsedScript(path: string, lines: seq<string>, tokens: seq<string>)
      : Result<(seq<string>, map<string, string>), Failure>
  {
    match SplitLines(ScriptLines(lines))
    case Err(e) => Err(e)
    case Ok(st) => Fixed(st, tokens, path)
  }

  /** The script's metadata records each token under its input name, when
      the script has a block, no later token shares the name and no
      `CHITIN_META` line sets it. */
  lemma ParsedMetaNames(path: string, lines: seq<string>, tokens: seq<string>, i: nat)
    requires ParsedScript(path, lines, tokens).Ok?
    requires SplitLines(ScriptLines(lines)).Ok?
    requires var st := SplitLines(ScriptLines(lines)).value;
             && |st.blocks| > 0 && i < |tokens|
             && FirstMissing(st.inputMap, |tokens|, 0).None?
             && (forall j :: i < j < |tokens| ==> InputName(st.inputMap, j) != InputName(st.inputMap, i))
             && InputName(st.inputMap, i) !in st.inputMeta
    ensures InputName(SplitLines(ScriptLines(lines)).value.inputMap, i) in ParsedScript(path, lines, tokens).value.1
    ensures ParsedScript(path, lines, tokens).value.1[InputName(SplitLines(ScriptLines(lines)).value.inputMap, i)] == tokens[i]
  {
    var st := SplitLines(ScriptLines(lines)).value;
    AssignedMeans(st.inputMap, tokens, i);
  }
}
