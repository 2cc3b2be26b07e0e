/** Input validation of the interactive menus of `log_manager.py`. Each
    prompt re-asks until it gets an answer it accepts; the answers typed are
    an input sequence, and running out of them ends the session (end of
    input or an interrupt ends the program). */
module LogMenus {
  import opened Wrappers
  import opened Strings
  import opened LogManager

  const DEFAULT_TAIL_FILE: string := "sensors_ts.log"
  const DEFAULT_TAIL_LINES: int := 20
  const DEFAULT_DAYS_TO_KEEP: int := 7

  datatype SearchScope = AllLogs | SensorLogs | EmailLogs | StreamLogs | OneFile

  /** The prompts, each with what it needs to judge an answer. */
  datatype Prompt =
    | MenuChoice                      // "Enter your choice (1-6)"
    | TailFile(files: seq<string>)    // "Select file (1-n+1) or press Enter"
    | TailLines                       // "Number of lines to show"
    | DaysToKeep                      // "Days to keep ... or 'cancel'"
    | ScopeChoice                     // "Choose option (1-5)"
    | SearchFileNumber(files: seq<string>)  // "Select file (1-n)"

  datatype Answer = Choice(n: int) | File(name: string) | Count(n: int) | Cancel | Scope(scope: SearchScope)

  /** The main menu accepts exactly the answers "1" to "6". */
  function MainChoice(s: string): (r: Option<Answer>)
    ensures r.Some? <==> s in ["1", "2", "3", "4", "5", "6"]
    ensures r.Some? ==> r.value.Choice? && 1 <= r.value.n <= 6 && ParseInt(s) == Some(r.value.n)
  {
    if |s| == 1 && '1' <= s[0] <= '6' then
      assert s == [s[0]];
      Some(Choice(s[0] as int - '0' as int))
    else None
  }

  /** The tail file prompt: Enter or `n + 1` pick the default log, `1..n`
      pick a listed file; anything else is refused. */
  function TailFileChoice(files: seq<string>, s: string): (r: Option<Answer>)
    ensures r.Some? ==> r.value.File?
  {
    if s == "" then Some(File(DEFAULT_TAIL_FILE))
    else match ParseInt(s)
      case None => None
      case Some(c) =>
        if 1 <= c <= |files| then Some(File(files[c - 1]))
        else if c == |files| + 1 then Some(File(DEFAULT_TAIL_FILE))
        else None
  }

  /** A positive count, or `default` for an empty answer. */
  function PositiveCount(s: string, default: int): (r: Option<Answer>)
    requires default > 0
    ensures r.Some? ==> r.value.Count? && r.value.n > 0
  {
    if s == "" then Some(Count(default))
    else match ParseInt(s)
      case Some(v) => if v > 0 then Some(Count(v)) else None
      case None => None
  }

  /** The days prompt, on the stripped and lower-cased answer. */
  function DaysChoice(s: string): (r: Option<Answer>)
    ensures r == Some(Cancel) <==> s == "cancel"
    ensures r.Some? ==> r.value.Cancel? || (r.value.Count? && r.value.n > 0)
  {
    if s == "cancel" then Some(Cancel) else PositiveCount(s, DEFAULT_DAYS_TO_KEEP)
  }

  function ScopeOf(s: string): (r: Option<Answer>)
    ensures r.Some? <==> s in ["1", "2", "3", "4", "5"]
    ensures r.Some? ==> r.value.Scope?
  {
    if s == "1" then Some(Scope(AllLogs))
    else if s == "2" then Some(Scope(SensorLogs))
    else if s == "3" then Some(Scope(EmailLogs))
    else if s == "4" then Some(Scope(StreamLogs))
    else if s == "5" then Some(Scope(OneFile))
    else None
  }

  function SearchFileChoice(files: seq<string>, s: string): (r: Option<Answer>)
    ensures r.Some? ==> r.value.File? && r.value.name in files
  {
    match ParseInt(s)
    case Some(c) => if 1 <= c <= |files| then Some(File(files[c - 1])) else None
    case None => None
  }

  /** Whether prompt `p` accepts the raw line `raw`, and the answer it takes
      from it. */
  function Accept(p: Prompt, raw: string): (r: Option<Answer>)
    ensures r.Some? && p.MenuChoice? ==> r.value.Choice?
    ensures r.Some? && (p.TailFile? || p.SearchFileNumber?) ==> r.value.File?
    ensures r.Some? && p.TailLines? ==> r.value.Count? && r.value.n > 0
    ensures r.Some? && p.DaysToKeep? ==> r.value.Cancel? || (r.value.Count? && r.value.n > 0)
    ensures r.Some? && p.ScopeChoice? ==> r.value.Scope?
  {
    var s := Strip(raw);
    match p
    case MenuChoice => MainChoice(s)
    case TailFile(files) => TailFileChoice(files, s)
    case TailLines => PositiveCount(s, DEFAULT_TAIL_LINES)
    case DaysToKeep => DaysChoice(Lower(s))
    case ScopeChoice => ScopeOf(s)
    case SearchFileNumber(files) => SearchFileChoice(files, s)
  }

  /** The index of the first line from `from` on that `p` accepts, or
      `|inputs|` when none is accepted. */
  function FirstAccepted(p: Prompt, inputs: seq<string>, from: nat): (i: nat)
    requires from <= |inputs|
    ensures from <= i <= |inputs|
    ensures i < |inputs| ==> Accept(p, inputs[i]).Some?
    ensures forall k :: from <= k < i ==> Accept(p, inputs[k]).None?
    decreases |inputs| - from
  {
    if from == |inputs| || Accept(p, inputs[from]).Some? then from
    else FirstAccepted(p, inputs, from + 1)
  }

  /** The first accepted line is the one after a run of refused lines. */
  lemma {:induction false} FirstAcceptedIs(p: Prompt, inputs: seq<string>, from: nat, i: nat)
    requires from <= i <= |inputs|
    requires forall k :: from <= k < i ==> Accept(p, inputs[k]).None?
    requires i < |inputs| ==> Accept(p, inputs[i]).Some?
    ensures FirstAccepted(p, inputs, from) == i
    decreases i - from
  {
    if from < i {
      FirstAcceptedIs(p, inputs, from + 1, i);
    }
  }

  /** One prompt loop: reads lines from `from` on until one is accepted. */
  method Ask(p: Prompt, inputs: seq<string>, from: nat) returns (answer: Option<Answer>, next: nat)
    requires from <= |inputs|
    ensures var i := FirstAccepted(p, inputs, from);
      && (i < |inputs| ==> answer == Accept(p, inputs[i]) && next == i + 1)
      && (i == |inputs| ==> answer == None && next == |inputs|)
  {
    next := from;
    while next < |inputs|
      invariant from <= next <= |inputs|
      invariant forall k :: from <= k < next ==> Accept(p, inputs[k]).None?
    {
      answer := Accept(p, inputs[next]);
      if answer.Some? {
        FirstAcceptedIs(p, inputs, from, next);
        return answer, next + 1;
      }
      next := next + 1;
    }
    FirstAcceptedIs(p, inputs, from, next);
    answer := None;
  }

  /** `get_user_choice()`: the first answer that is one of "1" to "6", as
      an integer. */
  method GetUserChoice(inputs: seq<string>) returns (choice: Option<int>, consumed: nat)
    ensures var i := FirstAccepted(MenuChoice, inputs, 0);
      && (i < |inputs| ==> choice == Some(Accept(MenuChoice, inputs[i]).value.n) && consumed == i + 1)
      && (i == |inputs| ==> choice == None && consumed == |inputs|)
    ensures choice.Some? ==> 1 <= choice.value <= 6
  {
    var answer;
    answer, consumed := Ask(MenuChoice, inputs, 0);
    choice := if answer.Some? then Some(answer.value.n) else None;
  }

  /** The answers the tail file prompt takes for a typed number. */
  lemma TailFileChoices(files: seq<string>, c: int)
    ensures TailFileChoice(files, "") == Some(File(DEFAULT_TAIL_FILE))
    ensures 1 <= c <= |files| ==> TailFileChoice(files, IntToString(c)) == Some(File(files[c - 1]))
    ensures c == |files| + 1 ==> TailFileChoice(files, IntToString(c)) == Some(File(DEFAULT_TAIL_FILE))
    ensures (c < 1 || c > |files| + 1) ==> TailFileChoice(files, IntToString(c)) == None
  {
    ParseIntOfString(c);
  }

  /** A typed count is taken exactly when it is positive. */
  lemma CountChoices(n: int)
    ensures PositiveCount(IntToString(n), DEFAULT_TAIL_LINES) == if n > 0 then Some(Count(n)) else None
    ensures DaysChoice(IntToString(n)) == if n > 0 then Some(Count(n)) else None
  {
    ParseIntOfString(n);
    assert IntToString(n) != "cancel" by {
      var t := IntToString(n);
      assert t[0] == '-' || IsDigit(t[0]);
    }
  }

  datatype TailRequest = NoLogFiles | TailInputEnded | ShowTail(filename: string, lines: int)

  /** `handle_tail_menu()`: lists the logs matching `*.log*`, then asks for
      a file and a line count; its request is then served by
      `show_log_tail`. */
  method HandleTailMenu(dir: Listing, inputs: seq<string>) returns (req: TailRequest, consumed: nat)
    ensures var files := Matching(dir, AnyLogSuffix);
      var i := FirstAccepted(TailFile(files), inputs, 0);
      var j := if i < |inputs| then FirstAccepted(TailLines, inputs, i + 1) else |inputs|;
      && (files == [] ==> req == NoLogFiles && consumed == 0)
      && (files != [] && j < |inputs| ==>
            && req == ShowTail(Accept(TailFile(files), inputs[i]).value.name,
                               Accept(TailLines, inputs[j]).value.n)
            && consumed == j + 1)
      && (files != [] && j == |inputs| ==> req == TailInputEnded && consumed == |inputs|)
    ensures req.ShowTail? ==> req.lines > 0
  {
    var files := Matching(dir, AnyLogSuffix);
    if files == [] {
      return NoLogFiles, 0;
    }
    var file, lines;
    file, consumed := Ask(TailFile(files), inputs, 0);
    if file.None? {
      return TailInputEnded, consumed;
    }
    lines, consumed := Ask(TailLines, inputs, consumed);
    if lines.None? {
      return TailInputEnded, consumed;
    }
    req := ShowTail(file.value.name, lines.value.n);
  }

  datatype CleanRequest = CleanCancelled | CleanInputEnded | CleanLogs(daysToKeep: int)

  /** Deletion goes ahead only on "y" or "yes", in any letter case and with
      surrounding whitespace. */
  predicate Confirms(raw: string)
  {
    var s := Lower(Strip(raw));
    s == "y" || s == "yes"
  }

  /** `handle_clean_menu()`: "cancel" aborts, an empty answer keeps 7 days,
      a positive number keeps that many; then one confirmation. */
  method HandleCleanMenu(inputs: seq<string>) returns (req: CleanRequest, consumed: nat)
    ensures var i := FirstAccepted(DaysToKeep, inputs, 0);
      && (i == |inputs| ==> req == CleanInputEnded && consumed == |inputs|)
      && (i < |inputs| && Accept(DaysToKeep, inputs[i]) == Some(Cancel) ==>
            req == CleanCancelled && consumed == i + 1)
      && (i < |inputs| && Accept(DaysToKeep, inputs[i]) != Some(Cancel) ==>
            var days := Accept(DaysToKeep, inputs[i]).value.n;
            if i + 1 == |inputs| then req == CleanInputEnded && consumed == |inputs|
            else consumed == i + 2
                 && req == if Confirms(inputs[i + 1]) then CleanLogs(days) else CleanCancelled)
    ensures req.CleanLogs? ==> req.daysToKeep > 0
  {
    var days;
    days, consumed := Ask(DaysToKeep, inputs, 0);
    if days.None? {
      return CleanInputEnded, consumed;
    }
    if days.value.Cancel? {
      return CleanCancelled, consumed;
    }
    if consumed == |inputs| {
      return CleanInputEnded, consumed;
    }
    req := if Confirms(inputs[consumed]) then CleanLogs(days.value.n) else CleanCancelled;
    consumed := consumed + 1;
  }

  datatype SearchRequest =
    | SearchNoLogFiles | EmptyTerm | SearchInputEnded
    | RunSearch(term: string, filename: Option<string>, logType: string)

  /** The `log_type` each scope passes to `search_logs`. */
  function LogTypeOf(scope: SearchScope): string
  {
    match scope
    case AllLogs => "all"
    case SensorLogs => "sensors"
    case EmailLogs => "email"
    case StreamLogs => "stream"
    case OneFile => "all"
  }

  /** `handle_search_menu()`: a non-empty stripped search term, then a
      scope, and for a single file its number among the listed logs. */
  method HandleSearchMenu(dir: Listing, inputs: seq<string>) returns (req: SearchRequest, consumed: nat)
    ensures var files := Matching(dir, AnyLogSuffix);
      && (files == [] ==> req == SearchNoLogFiles && consumed == 0)
      && (files != [] && inputs == [] ==> req == SearchInputEnded && consumed == 0)
      && (files != [] && inputs != [] && Strip(inputs[0]) == "" ==> req == EmptyTerm && consumed == 1)
      && (files != [] && inputs != [] && Strip(inputs[0]) != "" ==>
            var i := FirstAccepted(ScopeChoice, inputs, 1);
            && (i == |inputs| ==> req == SearchInputEnded && consumed == |inputs|)
            && (i < |inputs| && Accept(ScopeChoice, inputs[i]) != Some(Scope(OneFile)) ==>
                  req == RunSearch(Strip(inputs[0]), None, LogTypeOf(Accept(ScopeChoice, inputs[i]).value.scope))
                  && consumed == i + 1)
            && (i < |inputs| && Accept(ScopeChoice, inputs[i]) == Some(Scope(OneFile)) ==>
                  var j := FirstAccepted(SearchFileNumber(files), inputs, i + 1);
                  && (j == |inputs| ==> req == SearchInputEnded && consumed == |inputs|)
                  && (j < |inputs| ==>
                        req == RunSearch(Strip(inputs[0]), Some(Accept(SearchFileNumber(files), inputs[j]).value.name), "all")
                        && consumed == j + 1)))
    ensures req.RunSearch? && req.filename.Some? ==> req.filename.value in Matching(dir, AnyLogSuffix)
  {
    var files := Matching(dir, AnyLogSuffix);
    if files == [] {
      return SearchNoLogFiles, 0;
    }
    if inputs == [] {
      return SearchInputEnded, 0;
    }
    var term := Strip(inputs[0]);
    if term == "" {
      return EmptyTerm, 1;
    }
    var scope;
    scope, consumed := Ask(ScopeChoice, inputs, 1);
    if scope.None? {
      return SearchInputEnded, consumed;
    }
    if scope.value.scope != OneFile {
      return RunSearch(term, None, LogTypeOf(scope.value.scope)), consumed;
    }
    var file;
    file, consumed := Ask(SearchFileNumber(files), inputs, consumed);
    if file.None? {
      return SearchInputEnded, consumed;
    }
    req := RunSearch(term, Some(file.value.name), "all");
  }
}
