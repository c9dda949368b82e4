/**
 * The task suggestions of `tasks/TasksViewModel.kt`: cleaning the chat
 * model's reply down to a JSON array, the six placeholder tasks used when
 * that fails, the "spin" that draws tasks one at a time without
 * replacement, and the save/load of the chosen tasks as loose Firestore
 * records.
 */
module Tasks {
  import opened Wrappers
  import opened KotlinInts
  import opened KotlinStrings
  import opened Timestamps
  import opened Firestore

  datatype GeneratedTask = GeneratedTask(task: string, priority: Int32, description: string)

  // ------------------------------------------------------------ reply cleanup

  /** `raw.replace("```", "").trim()` */
  function CleanAiText(raw: string): (cleaned: string)
    ensures FenceFree(cleaned)
    ensures forall c :: c in cleaned ==> c in raw
    ensures cleaned != [] ==> !IsWhitespace(cleaned[0]) && !IsWhitespace(cleaned[|cleaned| - 1])
    ensures var w := Without(raw, TICKS);
      exists i, j :: 0 <= i <= j <= |w| && Without(cleaned, TICKS) == w[i..j] && IsBlank(w[..i]) && IsBlank(w[j..])
    ensures (forall i: nat :: !OccursAt(raw, FENCE, i)) ==> cleaned == Trim(raw)
  {
    var unfenced := RemoveAll(raw, FENCE);
    RemoveAllNoOccurrence(raw, FENCE);
    RemoveFencesLeavesNone(raw);
    RemoveAllKeepsOthers(raw, FENCE, TICKS);
    TrimWithout(unfenced, TICKS);
    var i := TrimStartIndex(unfenced);
    var j := TrimEndIndex(unfenced, i);
    assert Trim(unfenced) == unfenced[i..j];
    SliceFenceFree(unfenced, i, j);
    Trim(unfenced)
  }

  /** The backtick, the only character of a fence. */
  const TICKS: set<char> := {'`'}

  lemma SliceFenceFree(s: string, i: nat, j: nat)
    requires i <= j <= |s| && FenceFree(s)
    ensures FenceFree(s[i..j])
  {
    var t := s[i..j];
    forall k | 0 <= k && k + 3 <= |t| ensures !FenceAt(t, k) {
      assert !FenceAt(s, i + k);
    }
  }

  /**
   * The text from the first '[' to the last ']' inclusive; None (the
   * source's failed `require`) unless some '[' comes before some ']'.
   */
  function ExtractJsonArray(cleaned: string): (r: Option<string>)
    ensures r.Some? <==> exists i, j :: 0 <= i < j < |cleaned| && cleaned[i] == '[' && cleaned[j] == ']'
    ensures r.Some? ==>
      var i, j := IndexOf(cleaned, '['), LastIndexOf(cleaned, ']');
      && 0 <= i < j < |cleaned|
      && r.value == cleaned[i..j + 1]
      && '[' !in cleaned[..i] && ']' !in cleaned[j + 1..]
      && |r.value| >= 2 && r.value[0] == '[' && r.value[|r.value| - 1] == ']'
  {
    var start := IndexOf(cleaned, '[');
    var end := LastIndexOf(cleaned, ']');
    BracketPairExists(cleaned, start, end);
    if start != -1 && end > start then Some(cleaned[start..end + 1]) else None
  }

  lemma BracketPairExists(s: string, start: int, end: int)
    requires start == IndexOf(s, '[') && end == LastIndexOf(s, ']')
    ensures (start != -1 && end > start) <==> exists i, j :: 0 <= i < j < |s| && s[i] == '[' && s[j] == ']'
  {
    if i, j :| 0 <= i < j < |s| && s[i] == '[' && s[j] == ']' {
      assert start != -1 && end != -1;
    }
  }

  /** Some '[' comes before some ']'. */
  predicate BracketPair(s: string) {
    exists i, j :: 0 <= i < j < |s| && s[i] == '[' && s[j] == ']'
  }

  /** A left-to-right scan for a '[' that has a ']' somewhere after it. */
  predicate OpenThenClose(s: string)
    decreases |s|
  {
    s != [] && if s[0] == '[' then ']' in s[1..] else OpenThenClose(s[1..])
  }

  lemma {:induction false} BracketPairScan(s: string)
    ensures BracketPair(s) <==> OpenThenClose(s)
    decreases |s|
  {
    if s == [] {
    } else if s[0] == '[' {
      if ']' in s[1..] {
        var k :| 0 <= k < |s[1..]| && s[1..][k] == ']';
        assert s[k + 1] == ']';
      }
      if BracketPair(s) {
        var i, j :| 0 <= i < j < |s| && s[i] == '[' && s[j] == ']';
        assert s[1..][j - 1] == ']';
      }
    } else {
      var t := s[1..];
      BracketPairScan(t);
      if BracketPair(s) {
        var i, j :| 0 <= i < j < |s| && s[i] == '[' && s[j] == ']';
        assert t[i - 1] == '[' && t[j - 1] == ']';
      }
      if BracketPair(t) {
        var i, j :| 0 <= i < j < |t| && t[i] == '[' && t[j] == ']';
        assert s[i + 1] == '[' && s[j + 1] == ']';
      }
    }
  }

  /** Setting aside characters other than the brackets keeps the scan's answer. */
  lemma {:induction false} ScanWithout(s: string, drop: set<char>)
    requires '[' !in drop && ']' !in drop
    ensures OpenThenClose(Without(s, drop)) <==> OpenThenClose(s)
    decreases |s|
  {
    if s != [] {
      var t := s[1..];
      ScanWithout(t, drop);
      var w := Without(t, drop);
      if s[0] in drop {
        assert Without(s, drop) == w;
      } else {
        assert Without(s, drop) == [s[0]] + w;
        assert ([s[0]] + w)[1..] == w;
      }
    }
  }

  /** Brackets are not whitespace, so trimming neither loses nor makes a pair. */
  lemma TrimKeepsPair(s: string)
    ensures BracketPair(Trim(s)) <==> BracketPair(s)
  {
    var a, b :| 0 <= a <= b <= |s| && Trim(s) == s[a..b] && IsBlank(s[..a]) && IsBlank(s[b..]);
    BlankEndsKeepPair(s, a, b);
  }

  lemma BlankEndsKeepPair(s: string, a: nat, b: nat)
    requires a <= b <= |s| && IsBlank(s[..a]) && IsBlank(s[b..])
    ensures BracketPair(s[a..b]) <==> BracketPair(s)
  {
    var r := s[a..b];
    if BracketPair(s) {
      var i, j :| 0 <= i < j < |s| && s[i] == '[' && s[j] == ']';
      assert !IsWhitespace(s[i]) && !IsWhitespace(s[j]);
      forall k | 0 <= k < a ensures IsWhitespace(s[k]) { assert s[..a][k] == s[k]; }
      forall k | b <= k < |s| ensures IsWhitespace(s[k]) { assert s[b..][k - b] == s[k]; }
      assert a <= i && j < b;
      assert r[i - a] == '[' && r[j - a] == ']';
    }
    if BracketPair(r) {
      var i, j :| 0 <= i < j < |r| && r[i] == '[' && r[j] == ']';
      assert s[a + i] == '[' && s[a + j] == ']';
    }
  }

  /**
   * Cleaning finds an array exactly when the raw reply has a '[' before a
   * ']': fences and the surrounding whitespace never hide one and never
   * make one up.
   */
  lemma CleanedArrayFound(raw: string)
    ensures BracketPair(raw) <==> ExtractJsonArray(CleanAiText(raw)).Some?
  {
    var unfenced := RemoveAll(raw, FENCE);
    RemoveAllKeepsOthers(raw, FENCE, TICKS);
    ScanWithout(raw, TICKS);
    ScanWithout(unfenced, TICKS);
    BracketPairScan(raw);
    BracketPairScan(unfenced);
    TrimKeepsPair(unfenced);
    assert CleanAiText(raw) == Trim(unfenced);
  }

  /** Replies the model returns: the call failed, or the first choice's content (null when absent). */
  datatype ChatOutcome = CallFailed | Replied(firstContent: Option<string>)

  /** `List(6) { idx -> GeneratedTask("Task #${idx + 1}", 0, "") }` */
  function Placeholders(): (r: seq<GeneratedTask>)
    ensures |r| == 6
    ensures forall k :: 0 <= k < 6 ==> r[k].priority == 0 && r[k].description == ""
  {
    seq(6, idx requires 0 <= idx < 6 => GeneratedTask("Task #" + Decimal(idx + 1), 0, ""))
  }

  predicate NoDuplicates<T(==)>(s: seq<T>) {
    forall i, j :: 0 <= i < j < |s| ==> s[i] != s[j]
  }

  /** The placeholders are "Task #1" to "Task #6", with priority 0 and an empty description, all different. */
  lemma PlaceholdersShape()
    ensures |Placeholders()| == 6
    ensures forall k :: 0 <= k < 6 ==>
      Placeholders()[k] == GeneratedTask("Task #" + [DigitChar(k + 1)], 0, "")
    ensures Placeholders()[0].task == "Task #1" && Placeholders()[5].task == "Task #6"
    ensures NoDuplicates(Placeholders())
  {
    var p := Placeholders();
    forall k | 0 <= k < 6 ensures p[k] == GeneratedTask("Task #" + [DigitChar(k + 1)], 0, "") {
      assert Decimal(k + 1) == [DigitChar(k + 1)];
    }
    forall i, j | 0 <= i < j < 6 ensures p[i] != p[j] {
      assert p[i].task[6] == DigitChar(i + 1);
      assert p[j].task[6] == DigitChar(j + 1);
    }
  }

  /**
   * The candidate list a generation leaves: the decoded array when the call
   * succeeded, an array could be cut out of the cleaned reply and `decode`
   * (kotlinx.serialization, opaque here) accepted it; the placeholders
   * otherwise.
   */
  function GeneratedTasks(reply: ChatOutcome, decode: string -> Option<seq<GeneratedTask>>): (r: seq<GeneratedTask>)
    ensures r == Placeholders() || (
      && reply.Replied?
      && ExtractJsonArray(CleanAiText(reply.firstContent.GetOr(""))).Some?
      && decode(ExtractJsonArray(CleanAiText(reply.firstContent.GetOr(""))).value) == Some(r))
  {
    match reply
    case CallFailed => Placeholders()
    case Replied(content) =>
      match ExtractJsonArray(CleanAiText(content.GetOr("")))
      case None => Placeholders()
      case Some(json) =>
        match decode(json)
        case None => Placeholders()
        case Some(ts) => ts
  }

  /** A reply without any '[' (plain prose, say) always falls back to the placeholders. */
  lemma ProseFallsBack(content: string, decode: string -> Option<seq<GeneratedTask>>)
    requires '[' !in content
    ensures GeneratedTasks(Replied(Some(content)), decode) == Placeholders()
    ensures GeneratedTasks(Replied(None), decode) == Placeholders()
  {
    var cleaned := CleanAiText(content);
    assert '[' !in cleaned;
    assert ExtractJsonArray(cleaned).None?;
    assert ExtractJsonArray(CleanAiText("")).None?;
  }

  /** A well-formed reply is decoded from exactly the bracketed slice. */
  lemma DecodedWhenArrayFound(content: string, decode: string -> Option<seq<GeneratedTask>>, ts: seq<GeneratedTask>)
    requires ExtractJsonArray(CleanAiText(content)).Some?
    requires decode(ExtractJsonArray(CleanAiText(content)).value) == Some(ts)
    ensures GeneratedTasks(Replied(Some(content)), decode) == ts
  {
  }

  // ------------------------------------------------------------ spin

  /** `tasks.filter { it !in selected }` */
  function Remaining(tasks: seq<GeneratedTask>, selected: seq<GeneratedTask>): (r: seq<GeneratedTask>)
    ensures forall t :: t in r <==> t in tasks && t !in selected
    ensures |r| <= |tasks|
  {
    if tasks == [] then []
    else
      var rest := Remaining(tasks[1..], selected);
      assert forall t :: t in tasks <==> t == tasks[0] || t in tasks[1..];
      if tasks[0] !in selected then [tasks[0]] + rest else rest
  }

  /** The distinct elements of a duplicate-free sequence are as many as its length. */
  lemma {:induction false} DistinctCount<T>(s: seq<T>)
    requires NoDuplicates(s)
    ensures |set x | x in s| == |s|
  {
    if s != [] {
      var rest := s[1..];
      assert NoDuplicates(rest);
      DistinctCount(rest);
      assert s[0] !in rest;
      assert (set x | x in s) == {s[0]} + (set x | x in rest);
    }
  }

  /** While fewer tasks are selected than there are distinct candidates, a spin has something to draw. */
  lemma RemainingNonEmpty(tasks: seq<GeneratedTask>, selected: seq<GeneratedTask>)
    requires NoDuplicates(selected)
    requires forall k :: 0 <= k < |selected| ==> selected[k] in tasks
    requires |selected| < |set t | t in tasks|
    ensures Remaining(tasks, selected) != []
  {
    DistinctCount(selected);
    var sel := set t | t in selected;
    var all := set t | t in tasks;
    var diff := all - sel;
    assert all == sel + diff;
    assert sel * diff == {};
    assert |diff| > 0;
    var x :| x in diff;
    assert x in Remaining(tasks, selected);
  }

  /** `selectedTasks.take(3)` and `tasks.take(3)` */
  function Take3(s: seq<GeneratedTask>): (r: seq<GeneratedTask>)
    ensures |r| == if |s| < 3 then |s| else 3
    ensures r == s[..|r|]
  {
    if |s| < 3 then s else s[..3]
  }

  // ------------------------------------------------------------ Firestore records

  /** `(m["priority"] as? Number)?.toInt() ?: 0` */
  function PriorityOf(m: map<string, Value>): (p: Int32)
    ensures "priority" !in m || !(m["priority"].VLong? || m["priority"].VDouble?) ==> p == 0
    ensures "priority" in m && m["priority"].VLong? && INT_MIN <= m["priority"].n <= INT_MAX ==> p == m["priority"].n
    ensures "priority" in m && m["priority"].VLong? ==> p == LongToInt(m["priority"].n)
    ensures "priority" in m && m["priority"].VDouble? ==> p == DoubleToInt(m["priority"].x)
  {
    if "priority" !in m then 0
    else match m["priority"]
      case VLong(n) => LongToInt(n)
      case VDouble(x) => DoubleToInt(x)
      case _ => 0
  }

  /** One record of `loadSavedTasks`: dropped without a string "task", otherwise defaults for the rest. */
  function RecordTask(m: map<string, Value>): (r: Option<GeneratedTask>)
    ensures r.Some? <==> "task" in m && m["task"].VString?
    ensures r.Some? ==> r.value.task == m["task"].s
    ensures r.Some? ==> r.value.priority == PriorityOf(m)
    ensures r.Some? ==>
      r.value.description == (if "description" in m && m["description"].VString? then m["description"].s else "")
  {
    if "task" in m && m["task"].VString? then
      var d := if "description" in m && m["description"].VString? then m["description"].s else "";
      Some(GeneratedTask(m["task"].s, PriorityOf(m), d))
    else None
  }

  /**
   * `raw.mapNotNull { m -> ... }` over a list cast unchecked to
   * `List<Map<String, Any>>`: None when some element is not a map (the
   * cast fails inside the lambda and `loadSavedTasks` gives up).
   */
  function RecordTasks(raw: seq<Value>): (r: Option<seq<GeneratedTask>>)
    ensures r.Some? <==> forall k :: 0 <= k < |raw| ==> raw[k].VMap?
    ensures r.Some? ==> |r.value| <= |raw|
  {
    if raw == [] then Some([])
    else if !raw[0].VMap? then None
    else
      match RecordTasks(raw[1..])
      case None => None
      case Some(rest) =>
        match RecordTask(raw[0].fields)
        case None => Some(rest)
        case Some(t) => Some([t] + rest)
  }

  /** The mapping works record by record: it distributes over concatenation. */
  lemma {:induction false} RecordTasksAppend(a: seq<Value>, b: seq<Value>)
    requires RecordTasks(a).Some? && RecordTasks(b).Some?
    ensures RecordTasks(a + b) == Some(RecordTasks(a).value + RecordTasks(b).value)
    decreases |a|
  {
    if a == [] {
      assert a + b == b;
      assert RecordTasks(a).value + RecordTasks(b).value == RecordTasks(b).value;
    } else {
      assert (a + b)[0] == a[0];
      assert (a + b)[1..] == a[1..] + b;
      RecordTasksAppend(a[1..], b);
      var ra, rb := RecordTasks(a[1..]).value, RecordTasks(b).value;
      match RecordTask(a[0].fields)
      case None =>
      case Some(t) => assert [t] + (ra + rb) == ([t] + ra) + rb;
    }
  }

  /** A single record: kept as its task when it has a string "task", dropped otherwise. */
  lemma RecordTasksSingle(m: map<string, Value>)
    ensures RecordTasks([VMap(m)]) == Some(if RecordTask(m).Some? then [RecordTask(m).value] else [])
  {
    assert [VMap(m)][1..] == [];
    assert RecordTasks([]) == Some([]);
    match RecordTask(m)
    case None =>
    case Some(t) => assert [t] + [] == [t];
  }

  /** `doc.get("tasks") as? List<Map<String, Any>> ?: emptyList()` */
  function TasksList(field: Option<Value>): (r: seq<Value>)
    ensures field.Some? && field.value.VList? ==> r == field.value.items
    ensures !(field.Some? && field.value.VList?) ==> r == []
  {
    match field
    case Some(VList(items)) => items
    case _ => []
  }

  /** What `saveSelectedTasks` writes for one task. */
  function EncodeTask(t: GeneratedTask): (v: Value)
    ensures v.VMap? && v.fields.Keys == {"task", "priority", "description"}
    ensures RecordTask(v.fields) == Some(t)
  {
    VMap(map["task" := VString(t.task), "priority" := VLong(t.priority), "description" := VString(t.description)])
  }

  function EncodeTasks(ts: seq<GeneratedTask>): (r: seq<Value>)
    ensures |r| == |ts|
    ensures forall k :: 0 <= k < |ts| ==> r[k] == EncodeTask(ts[k])
  {
    seq(|ts|, k requires 0 <= k < |ts| => EncodeTask(ts[k]))
  }

  /** Loading what was saved gives the same tasks back. */
  lemma {:induction false} SaveLoadRoundTrip(ts: seq<GeneratedTask>)
    ensures RecordTasks(EncodeTasks(ts)) == Some(ts)
    decreases |ts|
  {
    if ts != [] {
      var e := EncodeTasks(ts);
      assert e[1..] == EncodeTasks(ts[1..]);
      SaveLoadRoundTrip(ts[1..]);
      assert RecordTask(e[0].fields) == Some(ts[0]);
      assert [ts[0]] + ts[1..] == ts;
    }
  }

  /** What the Firestore fetch in `loadSavedTasks` produced: an exception, or the document's "tasks" field. */
  datatype FetchOutcome = FetchFailed | Fetched(tasksField: Option<Value>)

  // ------------------------------------------------------------ the view model

  class TasksViewModel {
    var tasks: seq<GeneratedTask>
    var selectedTasks: seq<GeneratedTask>
    var spinCount: Int32
    const maxSpins: Int32 := 3

    constructor ()
      ensures tasks == [] && selectedTasks == [] && spinCount == 0
      ensures SpinInvariant()
    {
      tasks, selectedTasks, spinCount := [], [], 0;
    }

    /** What holds after a generation: the draws so far are distinct candidates, one per spin, at most `maxSpins`. */
    ghost predicate SpinInvariant()
      reads this
    {
      && (forall k :: 0 <= k < |selectedTasks| ==> selectedTasks[k] in tasks)
      && NoDuplicates(selectedTasks)
      && spinCount == |selectedTasks| <= maxSpins
    }

    /** The three guards of `spin` all pass. */
    predicate CanDraw()
      reads this
    {
      spinCount < maxSpins && tasks != [] && Remaining(tasks, selectedTasks) != []
    }

    /** `spin()`: draws one not-yet-selected candidate at random (any of them, here). */
    method Spin()
      modifies this
      ensures tasks == old(tasks)
      ensures !old(CanDraw()) ==> selectedTasks == old(selectedTasks) && spinCount == old(spinCount)
      ensures old(CanDraw()) ==>
        && |selectedTasks| == |old(selectedTasks)| + 1
        && selectedTasks[..|old(selectedTasks)|] == old(selectedTasks)
        && selectedTasks[|old(selectedTasks)|] in old(tasks)
        && selectedTasks[|old(selectedTasks)|] !in old(selectedTasks)
        && spinCount == old(spinCount) + 1
      ensures old(SpinInvariant()) ==> SpinInvariant()
    {
      if spinCount >= maxSpins || |tasks| == 0 {
        return;
      }
      var remaining := Remaining(tasks, selectedTasks);
      if |remaining| == 0 {
        return;
      }
      assert remaining[0] in remaining;
      var pick :| pick in remaining;
      selectedTasks := selectedTasks + [pick];
      spinCount := spinCount + 1;
    }

    /** The state-changing tail of `generateTasks`: new candidates, and the spinner reset. */
    method GenerateTasks(reply: ChatOutcome, decode: string -> Option<seq<GeneratedTask>>)
      modifies this
      ensures tasks == GeneratedTasks(reply, decode)
      ensures selectedTasks == [] && spinCount == 0
      ensures SpinInvariant()
    {
      tasks := GeneratedTasks(reply, decode);
      selectedTasks := [];
      spinCount := 0;
    }

    /**
     * `loadSavedTasks()`: without a user, after a failed fetch, or when a
     * record is not a map, nothing changes; otherwise the saved tasks become
     * the candidates, the first three of them the selection, and spinning is
     * switched off.
     */
    method LoadSavedTasks(uid: Option<string>, fetched: FetchOutcome)
      modifies this
      ensures
        var loaded := if fetched.Fetched? then RecordTasks(TasksList(fetched.tasksField)) else None;
        if uid.Some? && loaded.Some? then
          && tasks == loaded.value
          && selectedTasks == Take3(tasks)
          && spinCount == maxSpins
          && !CanDraw()
        else
          tasks == old(tasks) && selectedTasks == old(selectedTasks) && spinCount == old(spinCount)
    {
      if uid.None? {
        return;
      }
      match fetched
      case FetchFailed =>
      case Fetched(field) =>
        var loaded := RecordTasks(TasksList(field));
        if loaded.Some? {
          tasks := loaded.value;
          selectedTasks := Take3(tasks);
          spinCount := maxSpins;
        }
    }

    /**
     * `saveSelectedTasks`: without a user nothing is written and the
     * callback hears false; otherwise the document {tasks: the first three
     * selected, savedAt: now} is written and the callback hears whether the
     * write succeeded.
     */
    method SaveSelectedTasks(uid: Option<string>, now: Timestamp, writeSucceeds: bool)
      returns (reported: bool, written: Option<map<string, Value>>)
      ensures uid.None? ==> !reported && written.None?
      ensures uid.Some? ==> reported == writeSucceeds && written.Some?
      ensures written.Some? ==>
        && "tasks" in written.value && "savedAt" in written.value
        && written.value["savedAt"] == VTimestamp(now)
        && RecordTasks(TasksList(Some(written.value["tasks"]))) == Some(Take3(selectedTasks))
    {
      if uid.None? {
        return false, None;
      }
      var toSave := EncodeTasks(Take3(selectedTasks));
      SaveLoadRoundTrip(Take3(selectedTasks));
      written := Some(map["tasks" := VList(toSave), "savedAt" := VTimestamp(now)]);
      reported := writeSucceeds;
    }
  }

  /**
   * After a generation whose reply could not be used, three spins draw three
   * different placeholders and a fourth changes nothing.
   */
  method SpinsAfterFallback() returns (picked: seq<GeneratedTask>, fourth: seq<GeneratedTask>)
    ensures |picked| == 3 && NoDuplicates(picked)
    ensures forall k :: 0 <= k < 3 ==> picked[k] in Placeholders()
    ensures fourth == picked
  {
    var vm := new TasksViewModel();
    vm.GenerateTasks(CallFailed, _ => None);
    PlaceholdersShape();
    DistinctCount(Placeholders());
    RemainingNonEmpty(vm.tasks, vm.selectedTasks);
    vm.Spin();
    RemainingNonEmpty(vm.tasks, vm.selectedTasks);
    vm.Spin();
    RemainingNonEmpty(vm.tasks, vm.selectedTasks);
    vm.Spin();
    picked := vm.selectedTasks;
    vm.Spin();
    fourth := vm.selectedTasks;
  }
}
