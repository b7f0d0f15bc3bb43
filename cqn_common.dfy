/** The shared query helpers of service/common/GenericCqnService: the bot
    instance id carried in a CQN filter, the walk up to the main task, the
    first-call test, the parent-task lookup, and the word-capitalising
    label made from a context path. */
module CqnCommon {
  import opened Wrappers
  import opened JavaText
  import opened Store

  // ---------------------------------------------------------------------
  // extractBotInstanceIdFromContext: the regex "val":"([^"]+)"

  /** The literal text the pattern starts with. */
  const VAL_KEY: string := "\"val\":\""

  /** The capture group when the pattern matches at position i: one or
      more non-quote characters after the key, closed by a quote.  The
      greedy class can only stop at a quote, so this is the only way to
      match at i. */
  function MatchAt(s: string, i: nat): (r: Option<string>)
    ensures r.Some? ==> |r.value| >= 1 && '"' !in r.value
  {
    if OccursAt(s, VAL_KEY, i) then
      var rest := s[i + |VAL_KEY|..];
      var q := IndexOf(rest, '"');
      if q > 0 then Some(rest[..q]) else None
    else None
  }

  /** Matcher.find() from position i: the capture of the leftmost match. */
  function FindValFrom(s: string, i: nat): (r: Option<string>)
    ensures r.None? <==> forall j :: i <= j <= |s| ==> MatchAt(s, j).None?
    ensures r.Some? ==> exists j :: i <= j <= |s| && MatchAt(s, j) == r
                                    && forall k :: i <= k < j ==> MatchAt(s, k).None?
    decreases |s| - i
  {
    if i > |s| then None
    else if MatchAt(s, i).Some? then MatchAt(s, i)
    else FindValFrom(s, i + 1)
  }

  /** extractBotInstanceIdFromContext on the CQN's string form. */
  function ExtractBotInstanceId(cqn: string): (r: Result<string>)
    ensures r.Ok? ==> |r.value| >= 1 && '"' !in r.value
    ensures r.Err? <==> forall j :: 0 <= j <= |cqn| ==> MatchAt(cqn, j).None?
    ensures r.Err? ==> r.error == BusinessException("Could not extract bot instance ID from CQN: " + cqn)
  {
    match FindValFrom(cqn, 0)
    case Some(id) => Ok(id)
    case None => Err(BusinessException("Could not extract bot instance ID from CQN: " + cqn))
  }

  /** The pattern starts with a quote, so it cannot match where there is none. */
  lemma NoMatchBeforeQuote(s: string, p: nat)
    requires p <= |s| && forall k :: 0 <= k < p ==> s[k] != '"'
    ensures forall k :: 0 <= k < p ==> MatchAt(s, k).None?
  {
    forall k | 0 <= k < p ensures MatchAt(s, k).None? {
      assert !OccursAt(s, VAL_KEY, k) by {
        assert VAL_KEY[0] == '"';
      }
    }
  }

  /** The pattern matches at the key and captures up to the next quote. */
  lemma MatchAtKey(prefix: string, id: string, suffix: string, s: string)
    requires |id| >= 1 && '"' !in id
    requires s == prefix + VAL_KEY + id + "\"" + suffix
    ensures MatchAt(s, |prefix|) == Some(id)
  {
    var p := |prefix|;
    assert s[p..p + |VAL_KEY|] == VAL_KEY;
    var rest := s[p + |VAL_KEY|..];
    assert rest == id + "\"" + suffix;
    assert rest[..|id|] == id;
    assert forall j :: 0 <= j < |id| ==> rest[j] == id[j];
    IndexOfAt(rest, '"', |id|);
  }

  /** The leftmost match is found from any earlier start. */
  lemma {:induction false} FindFirstMatch(s: string, i: nat, p: nat, v: string)
    requires i <= p <= |s| && MatchAt(s, p) == Some(v)
    requires forall k :: i <= k < p ==> MatchAt(s, k).None?
    ensures FindValFrom(s, i) == Some(v)
    decreases p - i
  {
    if i < p {
      assert MatchAt(s, i).None?;
      FindFirstMatch(s, i + 1, p, v);
    } else {
      assert MatchAt(s, i).Some?;
    }
  }

  /** The id written into a filter `"val":"<id>"` is the one read back,
      whatever follows, when no quote comes before the filter. */
  lemma ExtractEmbedded(prefix: string, id: string, suffix: string)
    requires '"' !in prefix
    requires |id| >= 1 && '"' !in id
    ensures ExtractBotInstanceId(prefix + VAL_KEY + id + "\"" + suffix) == Ok(id)
  {
    var s := prefix + VAL_KEY + id + "\"" + suffix;
    assert forall k :: 0 <= k < |prefix| ==> s[k] == prefix[k];
    NoMatchBeforeQuote(s, |prefix|);
    MatchAtKey(prefix, id, suffix, s);
    FindFirstMatch(s, 0, |prefix|, id);
  }

  // ---------------------------------------------------------------------
  // isFirstCall

  /** isFirstCall given the outcome of the history query: a failed query
      counts as a first call, as does an empty history. */
  function IsFirstCall(history: Result<seq<BotMessage>>): (r: bool)
    ensures history.Err? ==> r
    ensures history.Ok? ==> (r <==> |history.value| == 0)
  {
    history.Err? || history.value == []
  }

  /** On a readable store, a first call is one whose bot instance has no
      message row at all. */
  lemma FirstCallNoMessages(ms: seq<BotMessage>, botInstanceId: string)
    ensures IsFirstCall(Ok(MessagesOf(ms, botInstanceId)))
        <==> forall m :: m in ms ==> m.botInstanceId != Some(botInstanceId)
  {
    var h := MessagesOf(ms, botInstanceId);
    if h != [] {
      assert h[0] in h;
    }
  }

  // ---------------------------------------------------------------------
  // getMainTaskId

  function TopLevelNotMain(taskId: string): Failure {
    BusinessException("Found top-level task but it's not marked as main task: " + taskId)
  }

  /** The loop of getMainTaskId from currentTaskId = cur, with at most fuel
      iterations; None when the fuel runs out first (the source loops
      forever on a cycle of non-main tasks). */
  function Walk(tasks: map<string, Task>, insts: map<string, BotInstance>, botInstanceId: string,
                cur: Option<string>, fuel: nat): (r: Option<Result<string>>)
    ensures r.Some? && r.value.Ok? ==> r.value.value in tasks && tasks[r.value.value].isMain == Some(true)
    decreases fuel
  {
    if fuel == 0 then None
    else match cur
      case None => Some(Err(BusinessException("Main task not found for botInstanceId: " + botInstanceId)))
      case Some(t) =>
        if t !in tasks then Some(Err(BusinessException("Task not found: " + t)))
        else if tasks[t].isMain == Some(true) then Some(Ok(t))
        else match tasks[t].botInstanceId
          case None => Some(Err(TopLevelNotMain(t)))
          case Some(b) =>
            if b == "" then Some(Err(TopLevelNotMain(t)))
            else if b !in insts then Some(Err(BusinessException("BotInstance not found: " + b)))
            else Walk(tasks, insts, botInstanceId, insts[b].taskId, fuel - 1)
  }

  /** getMainTaskId: the bot instance must exist, then the walk starts at
      its task. */
  function MainTaskId(tasks: map<string, Task>, insts: map<string, BotInstance>, botInstanceId: string,
                      fuel: nat): (r: Option<Result<string>>)
    ensures r.Some? && r.value.Ok? ==> r.value.value in tasks && tasks[r.value.value].isMain == Some(true)
    ensures botInstanceId !in insts ==> r == Some(Err(BusinessException("BotInstance not found: " + botInstanceId)))
  {
    if botInstanceId !in insts then Some(Err(BusinessException("BotInstance not found: " + botInstanceId)))
    else Walk(tasks, insts, botInstanceId, insts[botInstanceId].taskId, fuel)
  }

  /** More fuel never changes an outcome the walk already reached. */
  lemma {:induction false} WalkMoreFuel(tasks: map<string, Task>, insts: map<string, BotInstance>,
                                        botInstanceId: string, cur: Option<string>, fuel: nat, more: nat)
    requires Walk(tasks, insts, botInstanceId, cur, fuel).Some?
    requires fuel <= more
    ensures Walk(tasks, insts, botInstanceId, cur, more) == Walk(tasks, insts, botInstanceId, cur, fuel)
    decreases fuel
  {
    if cur.Some? && cur.value in tasks && tasks[cur.value].isMain != Some(true) {
      var b := tasks[cur.value].botInstanceId;
      if b.Some? && b.value != "" && b.value in insts {
        WalkMoreFuel(tasks, insts, botInstanceId, insts[b.value].taskId, fuel - 1, more - 1);
      }
    }
  }

  /** A non-main task whose bot instance belongs to that same task is a
      cycle: the walk never reaches an outcome, however much fuel. */
  lemma {:induction false} SelfCycleNeverEnds(tasks: map<string, Task>, insts: map<string, BotInstance>,
                                              botInstanceId: string, t: string, b: string, fuel: nat)
    requires t in tasks && tasks[t].isMain != Some(true)
    requires tasks[t].botInstanceId == Some(b) && b != "" && b in insts && insts[b].taskId == Some(t)
    ensures Walk(tasks, insts, botInstanceId, Some(t), fuel) == None
  {
    if fuel > 0 {
      SelfCycleNeverEnds(tasks, insts, botInstanceId, t, b, fuel - 1);
    }
  }

  /** getMainTaskId's loop, for a store on which it ends within fuel
      iterations. */
  method GetMainTaskId(db: Db, botInstanceId: string, ghost fuel: nat) returns (r: Result<string>)
    requires MainTaskId(db.tasks, db.botInstances, botInstanceId, fuel).Some?
    ensures r == MainTaskId(db.tasks, db.botInstances, botInstanceId, fuel).value
    ensures r.Ok? ==> r.value in db.tasks && db.tasks[r.value].isMain == Some(true)
  {
    if botInstanceId !in db.botInstances {
      return Err(BusinessException("BotInstance not found: " + botInstanceId));
    }
    var cur := db.botInstances[botInstanceId].taskId;
    ghost var f := fuel;
    while cur.Some?
      invariant Walk(db.tasks, db.botInstances, botInstanceId, cur, f)
             == MainTaskId(db.tasks, db.botInstances, botInstanceId, fuel)
      decreases f
    {
      var t := cur.value;
      if t !in db.tasks {
        return Err(BusinessException("Task not found: " + t));
      }
      var task := db.tasks[t];
      if task.isMain == Some(true) {
        return Ok(t);
      }
      var parent := task.botInstanceId;
      if parent.None? || parent.value == "" {
        return Err(TopLevelNotMain(t));
      }
      if parent.value !in db.botInstances {
        return Err(BusinessException("BotInstance not found: " + parent.value));
      }
      cur := db.botInstances[parent.value].taskId;
      f := f - 1;
    }
    r := Err(BusinessException("Main task not found for botInstanceId: " + botInstanceId));
  }

  // ---------------------------------------------------------------------
  // getParentTaskByBotInstance

  /** A bot instance's task; any failure on the way (no such
      instance, no task id, no such task) is re-raised as one
      BusinessException. */
  function ParentTaskByBotInstance(tasks: map<string, Task>, insts: map<string, BotInstance>,
                                   botInstanceId: string): (r: Result<Task>)
    ensures r.Ok? <==> botInstanceId in insts && insts[botInstanceId].taskId.Some?
                       && insts[botInstanceId].taskId.value in tasks
    ensures r.Ok? ==> r.value == tasks[insts[botInstanceId].taskId.value]
    ensures r.Err? ==> r.error == BusinessException("Failed to get parent task for botInstance: " + botInstanceId)
  {
    if botInstanceId in insts && insts[botInstanceId].taskId.Some? && insts[botInstanceId].taskId.value in tasks
    then Ok(tasks[insts[botInstanceId].taskId.value])
    else Err(BusinessException("Failed to get parent task for botInstance: " + botInstanceId))
  }

  // ---------------------------------------------------------------------
  // generateLabelFromPath

  /** replaceAll("([a-z])([A-Z])", "$1 $2"): a space between each ASCII
      lower-case letter and the upper-case letter after it.  An upper-case
      letter cannot start a match, so no boundary is skipped. */
  function CamelSpace(s: string): (r: string)
    ensures |r| >= |s|
    decreases |s|
  {
    if |s| < 2 then s
    else if IsLower(s[0]) && IsUpper(s[1]) then [s[0], ' ', s[1]] + CamelSpace(s[2..])
    else [s[0]] + CamelSpace(s[1..])
  }

  /** Some lower-case letter is directly followed by an upper-case one. */
  predicate HasCamelBoundary(s: string) {
    exists i :: 0 <= i < |s| - 1 && IsLower(s[i]) && IsUpper(s[i + 1])
  }

  /** The regex changes nothing when there is no boundary. */
  lemma {:induction false} CamelSpaceNoBoundary(s: string)
    requires !HasCamelBoundary(s)
    ensures CamelSpace(s) == s
    decreases |s|
  {
    if |s| >= 2 {
      assert !(IsLower(s[0]) && IsUpper(s[1]));
      assert !HasCamelBoundary(s[1..]) by {
        forall i | 0 <= i < |s[1..]| - 1
          ensures !(IsLower(s[1..][i]) && IsUpper(s[1..][i + 1]))
        {
          assert s[1..][i] == s[i + 1] && s[1..][i + 1] == s[i + 2];
        }
      }
      CamelSpaceNoBoundary(s[1..]);
    }
  }

  /** The text without its spaces. */
  function Unspaced(s: string): (r: string)
    ensures ' ' !in r
  {
    if s == [] then [] else (if s[0] == ' ' then [] else [s[0]]) + Unspaced(s[1..])
  }

  lemma {:induction false} UnspacedAppend(a: string, b: string)
    ensures Unspaced(a + b) == Unspaced(a) + Unspaced(b)
  {
    if a != [] {
      assert (a + b)[1..] == a[1..] + b;
      UnspacedAppend(a[1..], b);
    } else {
      assert a + b == b;
    }
  }

  lemma UnspacedCons(c: char, t: string)
    ensures Unspaced([c] + t) == (if c == ' ' then [] else [c]) + Unspaced(t)
  {
    assert ([c] + t)[1..] == t;
  }

  /** The camel-case step only inserts spaces: removing all spaces gives
      the same text before and after it. */
  lemma {:induction false} CamelSpaceOnlyInsertsSpaces(s: string)
    ensures Unspaced(CamelSpace(s)) == Unspaced(s)
    decreases |s|
  {
    if |s| >= 2 {
      var a, b := s[0], s[1];
      if IsLower(a) && IsUpper(b) {
        var rest := s[2..];
        var r := CamelSpace(rest);
        calc {
          Unspaced(CamelSpace(s));
          { assert CamelSpace(s) == [a] + ([' '] + ([b] + r)); }
          Unspaced([a] + ([' '] + ([b] + r)));
          { UnspacedCons(a, [' '] + ([b] + r)); UnspacedCons(' ', [b] + r); UnspacedCons(b, r); }
          [a] + ([b] + Unspaced(r));
          { CamelSpaceOnlyInsertsSpaces(rest); }
          [a] + ([b] + Unspaced(rest));
          { UnspacedCons(b, rest); UnspacedCons(a, [b] + rest); }
          Unspaced([a] + ([b] + rest));
          { assert s == [a] + ([b] + rest); }
          Unspaced(s);
        }
      } else {
        var rest := s[1..];
        calc {
          Unspaced(CamelSpace(s));
          { assert CamelSpace(s) == [a] + CamelSpace(rest); }
          Unspaced([a] + CamelSpace(rest));
          { UnspacedCons(a, CamelSpace(rest)); }
          (if a == ' ' then [] else [a]) + Unspaced(CamelSpace(rest));
          { CamelSpaceOnlyInsertsSpaces(rest); }
          (if a == ' ' then [] else [a]) + Unspaced(rest);
          { UnspacedCons(a, rest); }
          Unspaced([a] + rest);
          { assert s == [a] + rest; }
          Unspaced(s);
        }
      }
    }
  }

  /** The shared preprocessing of the last segment: camel-case boundaries
      become spaces, '_' and '-' become spaces, then lower case. */
  function Spaced(lastPart: string): (r: string)
    ensures forall i :: 0 <= i < |r| ==> r[i] != '_' && r[i] != '-' && !IsUpper(r[i])
  {
    var t := ReplaceChar(ReplaceChar(CamelSpace(lastPart), '_', " "), '-', " ");
    var r := LowerCase(t);
    assert forall i :: 0 <= i < |t| ==> t[i] != '_' && t[i] != '-' by {
      assert '_' !in ReplaceChar(CamelSpace(lastPart), '_', " ");
    }
    r
  }

  /** `parts[parts.length - 1]` of `path.split("\\.")`; a path made only
      of dots splits into nothing and would fail here, so it is excluded. */
  function LastSegment(path: string): (r: string)
    requires path == [] || HasOther(path, '.')
    ensures '.' !in r
  {
    SplitHasPiece(path, '.');
    var parts := Split(path, '.');
    parts[|parts| - 1]
  }

  /** The capitalizeNext scan: whitespace is copied and arms the flag; the
      first non-whitespace character after it is upper-cased. */
  function CapsFrom(l: string, capNext: bool): (r: string)
    ensures |r| == |l|
  {
    if l == [] then []
    else if IsWhitespace(l[0]) then [l[0]] + CapsFrom(l[1..], true)
    else if capNext then [ToUpper(l[0])] + CapsFrom(l[1..], false)
    else [l[0]] + CapsFrom(l[1..], false)
  }

  /** Position i starts a word: it is not whitespace and it is first or
      follows whitespace. */
  predicate StartsWord(l: string, i: int)
    requires 0 <= i < |l|
  {
    !IsWhitespace(l[i]) && (i == 0 || IsWhitespace(l[i - 1]))
  }

  /** The character the scan emits at position i, given the flag it
      started with. */
  function CapAt(l: string, capNext: bool, i: nat): char
    requires i < |l|
  {
    var armed := if i == 0 then capNext else IsWhitespace(l[i - 1]);
    if !IsWhitespace(l[i]) && armed then ToUpper(l[i]) else l[i]
  }

  /** What the scan does to each character: exactly the first character of
      each word is upper-cased; every whitespace run is kept as it is. */
  lemma {:induction false} CapsFromPointwise(l: string, capNext: bool)
    ensures forall i :: 0 <= i < |l| ==> CapsFrom(l, capNext)[i] == CapAt(l, capNext, i)
  {
    if l != [] {
      var r := CapsFrom(l, capNext);
      var tail := CapsFrom(l[1..], IsWhitespace(l[0]));
      CapsFromPointwise(l[1..], IsWhitespace(l[0]));
      assert r[1..] == tail;
      forall i | 0 <= i < |l|
        ensures r[i] == CapAt(l, capNext, i)
      {
        if i > 0 {
          assert r[i] == tail[i - 1] == CapAt(l[1..], IsWhitespace(l[0]), i - 1);
          assert l[1..][i - 1] == l[i];
          if i > 1 { assert l[1..][i - 2] == l[i - 1]; }
        }
      }
    }
  }

  /** common/GenericCqnService.generateLabelFromPath. */
  function CommonLabel(path: string): (r: string)
    requires path == [] || HasOther(path, '.')
  {
    if path == [] then "Context" else CapsFrom(Spaced(LastSegment(path)), true)
  }

  /** The StringBuilder loop of generateLabelFromPath: exactly the first
      character of each word is upper-cased; whitespace runs are kept. */
  method CapitalizeWords(l: string) returns (text: string)
    ensures |text| == |l|
    ensures forall i :: 0 <= i < |l| ==> text[i] == if StartsWord(l, i) then ToUpper(l[i]) else l[i]
  {
    text := [];
    var capitalizeNext := true;
    var i := 0;
    while i < |l|
      invariant 0 <= i <= |l| && |text| == i
      invariant capitalizeNext == (i == 0 || IsWhitespace(l[i - 1]))
      invariant forall k :: 0 <= k < i ==> text[k] == if StartsWord(l, k) then ToUpper(l[k]) else l[k]
    {
      var c := l[i];
      if IsWhitespace(c) {
        capitalizeNext := true;
        text := text + [c];
      } else if capitalizeNext {
        text := text + [ToUpper(c)];
        capitalizeNext := false;
      } else {
        text := text + [c];
      }
      i := i + 1;
    }
  }

  /** The loop and the recursive scan agree. */
  lemma CapitalizedIsCaps(l: string, text: string)
    requires |text| == |l|
    requires forall i :: 0 <= i < |l| ==> text[i] == if StartsWord(l, i) then ToUpper(l[i]) else l[i]
    ensures text == CapsFrom(l, true)
  {
    CapsFromPointwise(l, true);
    forall i | 0 <= i < |l|
      ensures text[i] == CapsFrom(l, true)[i]
    {
      assert CapsFrom(l, true)[i] == CapAt(l, true, i);
    }
  }

  /** The label is the last segment, spaced and lower-cased, with the first
      letter of each word upper-cased. */
  method GenerateLabelFromPath(path: string) returns (text: string)
    requires path == [] || HasOther(path, '.')
    ensures text == CommonLabel(path)
  {
    if path == [] {
      return "Context";
    }
    var l := Spaced(LastSegment(path));
    text := CapitalizeWords(l);
    CapitalizedIsCaps(l, text);
  }

  /** A path whose last dot separates two dot-free, non-empty parts ends
      in the part after that dot. */
  lemma LastSegmentOf(a: string, b: string)
    requires '.' !in a && '.' !in b && b != []
    ensures HasOther(a + ['.'] + b, '.')
    ensures LastSegment(a + ['.'] + b) == b
  {
    var p := a + ['.'] + b;
    assert p[|a| + 1] == b[0] != '.';
    PiecesJoin([a], '.');
    PiecesSnoc(a, b, '.');
    assert Pieces(p, '.') == [a, b];
  }

  lemma UserNameSegment()
    ensures HasOther("report.userName", '.')
    ensures LastSegment("report.userName") == "userName"
  {
    assert "report.userName" == "report" + ['.'] + "userName";
    LastSegmentOf("report", "userName");
  }

  /** One step of the camel-case scan. */
  lemma CamelSpaceStep(c: char, d: char, t: string)
    ensures CamelSpace([c] + ([d] + t))
            == if IsLower(c) && IsUpper(d) then [c, ' ', d] + CamelSpace(t) else [c] + CamelSpace([d] + t)
  {
    var s := [c] + ([d] + t);
    assert s[2..] == t && s[1..] == [d] + t;
  }

  predicate AllLower(w: string) {
    forall i :: 0 <= i < |w| ==> IsLower(w[i])
  }

  /** A lower-case word has no camel-case boundary. */
  lemma LowerUnchanged(t: string)
    requires AllLower(t)
    ensures CamelSpace(t) == t
  {
    assert !HasCamelBoundary(t) by {
      forall i | 1 <= i < |t| ensures !IsUpper(t[i]) {
        assert IsLower(t[i]);
      }
    }
    CamelSpaceNoBoundary(t);
  }

  /** A single lower-case letter before the capital. */
  lemma CamelOneLetter(a: char, c: char, t: string)
    requires IsLower(a) && IsUpper(c) && AllLower(t)
    ensures CamelSpace([a] + [c] + t) == [a] + [' ', c] + t
  {
    assert [a] + [c] + t == [a] + ([c] + t);
    CamelSpaceStep(a, c, t);
    LowerUnchanged(t);
  }

  /** Two lower-case letters: the first is copied. */
  lemma CamelPeel(w: string, c: char, t: string)
    requires |w| >= 2 && IsLower(w[1])
    ensures CamelSpace(w + [c] + t) == [w[0]] + CamelSpace(w[1..] + [c] + t)
  {
    var tail := w[2..] + [c] + t;
    assert w + [c] + t == [w[0]] + ([w[1]] + tail);
    CamelSpaceStep(w[0], w[1], tail);
    assert [w[1]] + tail == w[1..] + [c] + t;
  }

  /** A lower-case word followed by a capitalised one is split by one
      space at the boundary. */
  lemma {:induction false} CamelTwoWords(w: string, c: char, t: string)
    requires w != [] && AllLower(w) && IsUpper(c) && AllLower(t)
    ensures CamelSpace(w + [c] + t) == w + [' ', c] + t
  {
    if |w| == 1 {
      assert w == [w[0]];
      CamelOneLetter(w[0], c, t);
    } else {
      var rest := w[1..];
      assert AllLower(rest) by {
        forall i | 0 <= i < |rest| ensures IsLower(rest[i]) {
          assert rest[i] == w[i + 1];
        }
      }
      CamelPeel(w, c, t);
      CamelTwoWords(rest, c, t);
      assert w == [w[0]] + rest;
    }
  }

  lemma UserNameCamel()
    ensures CamelSpace("userName") == "user Name"
  {
    assert "userName" == "user" + ['N'] + "ame";
    CamelTwoWords("user", 'N', "ame");
    assert "user" + [' ', 'N'] + "ame" == "user Name";
  }

  lemma UserNameLower()
    ensures ReplaceChar("user Name", '_', " ") == "user Name"
    ensures ReplaceChar("user Name", '-', " ") == "user Name"
    ensures LowerCase("user Name") == "user name"
  {
    assert '_' !in "user Name" && '-' !in "user Name";
    var l := LowerCase("user Name");
    assert l[5] == ToLower('N') == 'n';
    assert l == "user name";
  }

  lemma UserNameSpaced()
    ensures Spaced("userName") == "user name"
  {
    UserNameCamel();
    UserNameLower();
  }

  /** A camel-case segment becomes two capitalised words. */
  lemma UserNameLabel()
    ensures HasOther("report.userName", '.')
    ensures CommonLabel("report.userName") == "User Name"
  {
    UserNameSegment();
    UserNameSpaced();
    UserNameCaps();
  }

  /** No character of w is whitespace. */
  predicate OneWord(w: string) {
    forall i :: 0 <= i < |w| ==> !IsWhitespace(w[i])
  }

  /** Inside a word the scan copies characters; the space after it arms
      the flag for the next word. */
  lemma {:induction false} CapsFromWord(w: string, rest: string)
    requires OneWord(w)
    ensures CapsFrom(w + [' '] + rest, false) == w + [' '] + CapsFrom(rest, true)
  {
    if w == [] {
      assert w + [' '] + rest == [' '] + rest;
      assert ([' '] + rest)[1..] == rest;
    } else {
      assert (w + [' '] + rest)[1..] == w[1..] + [' '] + rest;
      CapsFromWord(w[1..], rest);
    }
  }

  /** A word at the end is copied unchanged when the flag is off. */
  lemma {:induction false} CapsFromLastWord(w: string)
    requires OneWord(w)
    ensures CapsFrom(w, false) == w
  {
    if w != [] {
      CapsFromLastWord(w[1..]);
    }
  }

  /** Two words separated by one space each get their first letter
      upper-cased. */
  lemma TwoWordsCapitalized(c: char, a: string, d: char, b: string)
    requires OneWord([c] + a) && OneWord([d] + b)
    ensures CapsFrom([c] + a + [' '] + [d] + b, true) == [ToUpper(c)] + a + [' '] + [ToUpper(d)] + b
  {
    assert ([c] + a + [' '] + [d] + b)[1..] == a + [' '] + ([d] + b);
    assert OneWord(a) by { assert forall i :: 0 <= i < |a| ==> a[i] == ([c] + a)[i + 1]; }
    assert OneWord(b) by { assert forall i :: 0 <= i < |b| ==> b[i] == ([d] + b)[i + 1]; }
    CapsFromWord(a, [d] + b);
    assert ([d] + b)[1..] == b;
    CapsFromLastWord(b);
  }

  lemma UserNameCaps()
    ensures CapsFrom("user name", true) == "User Name"
  {
    assert "user name" == ['u'] + "ser" + [' '] + ['n'] + "ame";
    assert "User Name" == ['U'] + "ser" + [' '] + ['N'] + "ame";
    TwoWordsCapitalized('u', "ser", 'n', "ame");
  }
}
