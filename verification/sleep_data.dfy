/**
 * The sleep data layer: schedule and log records, and the repository that
 * keeps them in Firestore under `users/{uid}/sleepSchedules` and
 * `users/{uid}/sleepLogs`.
 *
 * The store is modelled as maps from the signed-in user's id to that
 * user's collection, a collection as a map from document id to document.
 * The signed-in user is a parameter (`None` when nobody is signed in).
 */
module SleepData {
  import opened Wrappers
  import opened KotlinInts
  import opened KotlinStrings
  import opened Timestamps
  import opened Firestore

  /**
   * A repeating or one-off bedtime/wake-up plan. The source calls the
   * second field `type`, which is a Dafny keyword.
   */
  datatype SleepSchedule = SleepSchedule(
    id: Option<string>,
    scheduleType: Option<string>,
    dayOfWeek: Option<Int32>,
    date: Option<string>,
    bedtime: Option<string>,
    wakeup: Option<string>)

  /** One night's record: the day key and the two moments. */
  datatype SleepLog = SleepLog(date: string, sleepAt: Timestamp, wakeAt: Timestamp)

  /** `id.isNullOrBlank()` */
  predicate IsNullOrBlank(id: Option<string>) {
    id.None? || IsBlank(id.value)
  }

  // ---------------------------------------------------------------- schedules

  /** A collection's schedules as the snapshot listener delivers them: each carries its document id. */
  function ScheduleView(col: map<string, SleepSchedule>): (r: map<string, SleepSchedule>)
    ensures r.Keys == col.Keys
    ensures forall k :: k in r ==> r[k].id == Some(k)
    ensures forall k :: k in r ==> r[k].(id := col[k].id) == col[k]
  {
    map k | k in col :: col[k].(id := Some(k))
  }

  /** Storing a schedule under a document id shows it, with that id, under that id and nowhere else. */
  lemma ScheduleViewAfterSet(col: map<string, SleepSchedule>, docId: string, s: SleepSchedule)
    ensures ScheduleView(col[docId := s]) == ScheduleView(col)[docId := s.(id := Some(docId))]
  {
  }

  /** Longest key length of a finite set of strings. */
  ghost function MaxLength(keys: set<string>): (n: nat)
    ensures forall k :: k in keys ==> |k| <= n
    decreases keys
  {
    if keys == {} then 0
    else
      var k :| k in keys;
      var rest := MaxLength(keys - {k});
      if |k| > rest then |k| else rest
  }

  /** Some non-blank document id is not yet taken in a collection. */
  lemma FreshIdExists(taken: set<string>)
    ensures exists id :: id !in taken && !IsBlank(id)
  {
    var id := seq(MaxLength(taken) + 1, _ => 'a');
    assert id[0] == 'a' && !IsWhitespace('a');
    assert id !in taken;
  }

  // ---------------------------------------------------------------- sleep logs

  /** Fields written by `recordSleepStart(at)`. */
  function SleepStartFields(at: Timestamp): Document {
    map["date" := VString(DateKey(at)), "sleepAt" := VTimestamp(at)]
  }

  /** Fields written by `recordWakeTime(at)`. */
  function WakeFields(at: Timestamp): Document {
    map["wakeAt" := VTimestamp(at)]
  }

  function Lookup(col: map<string, Document>, key: string): Option<Document> {
    if key in col then Some(col[key]) else None
  }

  /** A collection after a merge write of `fields` into document `key`. */
  function MergeAt(col: map<string, Document>, key: string, fields: Document): (r: map<string, Document>)
    ensures r.Keys == col.Keys + {key}
    ensures forall k :: k in col && k != key ==> r[k] == col[k]
    ensures r[key] == MergeSet(Lookup(col, key), fields)
  {
    col[key := MergeSet(Lookup(col, key), fields)]
  }

  /** Merging disjoint field sets into one document in either order gives the same document. */
  lemma MergeSetCommute(d: Option<Document>, f1: Document, f2: Document)
    requires f1.Keys !! f2.Keys
    ensures MergeSet(Some(MergeSet(d, f1)), f2) == MergeSet(Some(MergeSet(d, f2)), f1)
  {
    var l := MergeSet(Some(MergeSet(d, f1)), f2);
    var r := MergeSet(Some(MergeSet(d, f2)), f1);
    assert l.Keys == r.Keys;
    forall f | f in l
      ensures l[f] == r[f]
    {
      if f in f1 {
        assert f !in f2;
      }
    }
  }

  /** Merge writes of disjoint field sets commute. */
  lemma MergeAtCommute(col: map<string, Document>, k1: string, f1: Document, k2: string, f2: Document)
    requires f1.Keys !! f2.Keys
    ensures MergeAt(MergeAt(col, k1, f1), k2, f2) == MergeAt(MergeAt(col, k2, f2), k1, f1)
  {
    var l, r := MergeAt(MergeAt(col, k1, f1), k2, f2), MergeAt(MergeAt(col, k2, f2), k1, f1);
    if k1 == k2 {
      MergeSetCommute(Lookup(col, k1), f1, f2);
      assert l[k1] == r[k1];
    }
    assert l.Keys == r.Keys;
    assert forall k :: k in l ==> l[k] == r[k];
  }

  /** A merge write that names every field of an earlier one on the same document hides it. */
  lemma MergeAtOverwrites(col: map<string, Document>, key: string, f1: Document, f2: Document)
    requires f1.Keys <= f2.Keys
    ensures MergeAt(MergeAt(col, key, f1), key, f2) == MergeAt(col, key, f2)
  {
    var l, r := MergeAt(MergeAt(col, key, f1), key, f2), MergeAt(col, key, f2);
    assert l[key].Keys == r[key].Keys;
    assert l[key] == r[key];
  }

  /** A sleep-log collection after `recordSleepStart(at)`: merges date and bedtime into the day's document. */
  function WithSleepStart(col: map<string, Document>, at: Timestamp): (r: map<string, Document>)
    ensures r.Keys == col.Keys + {DateKey(at)}
    ensures forall k :: k in col && k != DateKey(at) ==> r[k] == col[k]
    ensures "date" in r[DateKey(at)] && "sleepAt" in r[DateKey(at)]
    ensures r[DateKey(at)]["date"] == VString(DateKey(at))
    ensures r[DateKey(at)]["sleepAt"] == VTimestamp(at)
    ensures forall f :: f != "date" && f != "sleepAt" ==>
      (f in r[DateKey(at)] <==> DateKey(at) in col && f in col[DateKey(at)])
    ensures forall f :: f != "date" && f != "sleepAt" && f in r[DateKey(at)] ==> r[DateKey(at)][f] == col[DateKey(at)][f]
  {
    MergeAt(col, DateKey(at), SleepStartFields(at))
  }

  /** A sleep-log collection after `recordWakeTime(at)`: merges the wake-up time into the day's document. */
  function WithWakeTime(col: map<string, Document>, at: Timestamp): (r: map<string, Document>)
    ensures r.Keys == col.Keys + {DateKey(at)}
    ensures forall k :: k in col && k != DateKey(at) ==> r[k] == col[k]
    ensures "wakeAt" in r[DateKey(at)]
    ensures r[DateKey(at)]["wakeAt"] == VTimestamp(at)
    ensures forall f :: f != "wakeAt" ==> (f in r[DateKey(at)] <==> DateKey(at) in col && f in col[DateKey(at)])
    ensures forall f :: f != "wakeAt" && f in r[DateKey(at)] ==> r[DateKey(at)][f] == col[DateKey(at)][f]
  {
    MergeAt(col, DateKey(at), WakeFields(at))
  }

  /** A stored log document read back as a `SleepLog`: it needs the date string and both timestamps. */
  function ToSleepLog(doc: Document): (r: Option<SleepLog>)
    ensures r.Some? <==>
      && "date" in doc && doc["date"].VString?
      && "sleepAt" in doc && doc["sleepAt"].VTimestamp?
      && "wakeAt" in doc && doc["wakeAt"].VTimestamp?
    ensures r.Some? ==> (doc["date"] == VString(r.value.date)
      && doc["sleepAt"] == VTimestamp(r.value.sleepAt) && doc["wakeAt"] == VTimestamp(r.value.wakeAt))
  {
    if "date" in doc && doc["date"].VString?
      && "sleepAt" in doc && doc["sleepAt"].VTimestamp?
      && "wakeAt" in doc && doc["wakeAt"].VTimestamp?
    then Some(SleepLog(doc["date"].s, doc["sleepAt"].t, doc["wakeAt"].t))
    else None
  }

  /** The logs the snapshot listener delivers: the documents that read back as a `SleepLog`. */
  function LogView(col: map<string, Document>): (r: map<string, SleepLog>)
    ensures r.Keys <= col.Keys
    ensures forall k :: k in col ==> (k in r <==> ToSleepLog(col[k]).Some?)
    ensures forall k :: k in r ==> Some(r[k]) == ToSleepLog(col[k])
  {
    map k | k in col && ToSleepLog(col[k]).Some? :: ToSleepLog(col[k]).value
  }

  /**
   * The listener as written: `toObject(SleepLog::class.java)` needs a
   * no-argument constructor, which `SleepLog` (all of its parameters
   * without defaults) lacks, so the mapper throws on the first document.
   * `None` stands for that exception; only an empty collection is delivered.
   */
  function LogViewAsWritten(col: map<string, Document>): (r: Option<map<string, SleepLog>>)
    ensures r.Some? <==> col == map[]
    ensures r.Some? ==> r.value == map[]
  {
    if col == map[] then Some(map[]) else None
  }

  /** As written, once a night has been recorded the log list is never delivered again. */
  lemma AsWrittenLogsNeverListed(col: map<string, Document>, sleepAt: Timestamp, wakeAt: Timestamp)
    ensures LogViewAsWritten(WithSleepStart(col, sleepAt)).None?
    ensures LogViewAsWritten(WithWakeTime(WithSleepStart(col, sleepAt), wakeAt)).None?
  {
    assert DateKey(sleepAt) in WithSleepStart(col, sleepAt);
    assert DateKey(sleepAt) in WithWakeTime(WithSleepStart(col, sleepAt), wakeAt);
  }

  /** Every log document that has a date field is stored under that date. */
  ghost predicate KeyedByDate(col: map<string, Document>) {
    forall k :: k in col && "date" in col[k] ==> col[k]["date"] == VString(k)
  }

  /** Both writes keep log documents keyed by their date. */
  lemma WritesKeepKeyedByDate(col: map<string, Document>, at: Timestamp)
    requires KeyedByDate(col)
    ensures KeyedByDate(WithSleepStart(col, at))
    ensures KeyedByDate(WithWakeTime(col, at))
  {
    var key := DateKey(at);
    var w := WithWakeTime(col, at);
    forall k | k in w && "date" in w[k]
      ensures w[k]["date"] == VString(k)
    {
      if k == key {
        assert "date" in col[key];
      }
    }
  }

  /** Every log in a date-keyed collection carries its document id as its date. */
  lemma LogDatesMatchKeys(col: map<string, Document>)
    requires KeyedByDate(col)
    ensures forall k :: k in LogView(col) ==> LogView(col)[k].date == k
  {
    forall k | k in LogView(col)
      ensures LogView(col)[k].date == k
    {
      assert ToSleepLog(col[k]).Some?;
    }
  }

  /** Bedtime and wake-up touch disjoint fields, so their order does not matter. */
  lemma StartAndWakeCommute(col: map<string, Document>, a: Timestamp, b: Timestamp)
    ensures WithWakeTime(WithSleepStart(col, a), b) == WithSleepStart(WithWakeTime(col, b), a)
  {
    MergeAtCommute(col, DateKey(a), SleepStartFields(a), DateKey(b), WakeFields(b));
  }

  /** A later bedtime on the same UTC day replaces the earlier one. */
  lemma LaterStartWins(col: map<string, Document>, a: Timestamp, a': Timestamp)
    requires DateKey(a) == DateKey(a')
    ensures WithSleepStart(WithSleepStart(col, a), a') == WithSleepStart(col, a')
  {
    MergeAtOverwrites(col, DateKey(a), SleepStartFields(a), SleepStartFields(a'));
  }

  /** Going to bed and waking on the same UTC day yields that night's log. */
  lemma SameDayNightLogged(col: map<string, Document>, a: Timestamp, b: Timestamp)
    requires a.year == b.year && a.month == b.month && a.day == b.day
    ensures DateKey(a) in LogView(WithWakeTime(WithSleepStart(col, a), b))
    ensures LogView(WithWakeTime(WithSleepStart(col, a), b))[DateKey(a)] == SleepLog(DateKey(a), a, b)
  {
    DateKeySameDay(a, b);
    var key := DateKey(a);
    var after := WithWakeTime(WithSleepStart(col, a), b);
    assert after[key]["date"] == VString(key);
    assert after[key]["sleepAt"] == VTimestamp(a);
  }

  /**
   * A night that crosses UTC midnight lands in two documents: bedtime under
   * the first day and wake-up under the second. On a fresh collection
   * neither reads back as a log.
   */
  lemma NightAcrossMidnightSplit(a: Timestamp, b: Timestamp)
    requires a.year != b.year || a.month != b.month || a.day != b.day
    ensures WithWakeTime(WithSleepStart(map[], a), b).Keys == {DateKey(a), DateKey(b)}
    ensures "wakeAt" !in WithWakeTime(WithSleepStart(map[], a), b)[DateKey(a)]
    ensures "sleepAt" !in WithWakeTime(WithSleepStart(map[], a), b)[DateKey(b)]
    ensures LogView(WithWakeTime(WithSleepStart(map[], a), b)) == map[]
  {
    DateKeySameDay(a, b);
    var after := WithWakeTime(WithSleepStart(map[], a), b);
    assert DateKey(a) != DateKey(b);
    assert LogView(after).Keys == {};
  }

  // ---------------------------------------------------------------- repository

  class SleepRepository {
    /** `users/{uid}/sleepSchedules`, per user. */
    var schedules: map<string, map<string, SleepSchedule>>
    /** `users/{uid}/sleepLogs`, per user. */
    var sleepLogs: map<string, map<string, Document>>

    constructor()
      ensures schedules == map[] && sleepLogs == map[]
      ensures Valid()
    {
      schedules := map[];
      sleepLogs := map[];
    }

    /** Every user's sleep logs are stored under their dates. */
    ghost predicate Valid()
      reads this
    {
      forall u :: u in sleepLogs ==> KeyedByDate(sleepLogs[u])
    }

    function SchedulesOf(u: string): map<string, SleepSchedule>
      reads this
    {
      if u in schedules then schedules[u] else map[]
    }

    function LogsOf(u: string): map<string, Document>
      reads this
    {
      if u in sleepLogs then sleepLogs[u] else map[]
    }

    /**
     * `saveSchedule`: without a signed-in user nothing happens. A schedule
     * whose id is null or blank is added under a new document id; any
     * other id names the document that is overwritten.
     */
    method SaveSchedule(uid: Option<string>, schedule: SleepSchedule) returns (docId: Option<string>)
      modifies this
      ensures sleepLogs == old(sleepLogs)
      ensures uid.None? ==> docId.None? && schedules == old(schedules)
      ensures uid.Some? ==> (docId.Some?
        && schedules == old(schedules)[uid.value := old(SchedulesOf(uid.value))[docId.value := schedule]])
      ensures uid.Some? && IsNullOrBlank(schedule.id) ==>
        docId.value !in old(SchedulesOf(uid.value)) && !IsBlank(docId.value)
      ensures uid.Some? && !IsNullOrBlank(schedule.id) ==> docId == schedule.id
      ensures Valid() <==> old(Valid())
    {
      if uid.None? {
        return None;
      }
      var u := uid.value;
      var col := SchedulesOf(u);
      var id: string;
      if IsNullOrBlank(schedule.id) {
        FreshIdExists(col.Keys);
        id :| id !in col && !IsBlank(id);
      } else {
        id := schedule.id.value;
      }
      schedules := schedules[u := col[id := schedule]];
      docId := Some(id);
    }

    /** `recordSleepStart(at)`: merges date and bedtime into the document of `at`'s UTC day. */
    method RecordSleepStart(uid: Option<string>, at: Timestamp)
      requires Valid()
      modifies this
      ensures schedules == old(schedules)
      ensures uid.None? ==> sleepLogs == old(sleepLogs)
      ensures uid.Some? ==> sleepLogs == old(sleepLogs)[uid.value := WithSleepStart(old(LogsOf(uid.value)), at)]
      ensures Valid()
    {
      if uid.Some? {
        var u := uid.value;
        WritesKeepKeyedByDate(LogsOf(u), at);
        sleepLogs := sleepLogs[u := WithSleepStart(LogsOf(u), at)];
      }
    }

    /** `recordWakeTime(at)`: merges the wake-up time into the document of `at`'s UTC day. */
    method RecordWakeTime(uid: Option<string>, at: Timestamp)
      requires Valid()
      modifies this
      ensures schedules == old(schedules)
      ensures uid.None? ==> sleepLogs == old(sleepLogs)
      ensures uid.Some? ==> sleepLogs == old(sleepLogs)[uid.value := WithWakeTime(old(LogsOf(uid.value)), at)]
      ensures Valid()
    {
      if uid.Some? {
        var u := uid.value;
        WritesKeepKeyedByDate(LogsOf(u), at);
        sleepLogs := sleepLogs[u := WithWakeTime(LogsOf(u), at)];
      }
    }

    /** `getSchedulesFlow()`'s current list; `None` when nobody is signed in and the flow closes empty. */
    function SchedulesFlow(uid: Option<string>): (r: Option<map<string, SleepSchedule>>)
      reads this
      ensures r.Some? <==> uid.Some?
      ensures r.Some? ==> r.value.Keys == SchedulesOf(uid.value).Keys
      ensures r.Some? ==> forall k :: k in r.value ==> r.value[k].id == Some(k)
      ensures r.Some? ==> r.value == ScheduleView(SchedulesOf(uid.value))
    {
      if uid.None? then None else Some(ScheduleView(SchedulesOf(uid.value)))
    }

    /** `getSleepLogsFlow()`'s current list; `None` when nobody is signed in. */
    function SleepLogsFlow(uid: Option<string>): (r: Option<map<string, SleepLog>>)
      reads this
      requires Valid()
      ensures r.Some? <==> uid.Some?
      ensures r.Some? ==> r.value.Keys <= LogsOf(uid.value).Keys
      ensures r.Some? ==> forall k :: k in r.value ==> r.value[k].date == k
      ensures r.Some? ==> r.value == LogView(LogsOf(uid.value))
    {
      if uid.None? then None
      else
        LogDatesMatchKeys(LogsOf(uid.value));
        Some(LogView(LogsOf(uid.value)))
    }
  }
}
