/**
 * The lesson list of the farmers' learning app: the localized two-tier fetch of
 * the lessons table, the derivation of each lesson's progression status from the
 * user's completed lessons, and the sections the lessons screen shows.
 */
module Lessons {
  import opened Wrappers

  /** The language whose title/description columns always exist. */
  const DEFAULT_LANGUAGE: string := "en"
  const TITLE_PLACEHOLDER: string := "Lesson Title Missing"
  const DESCRIPTION_PLACEHOLDER: string := "Lesson description missing."

  // ---------------------------------------------------------------------------
  // Data model
  // ---------------------------------------------------------------------------

  datatype Status = Current | Completed | Locked

  /** A lesson after its text has been resolved into one language. */
  datatype LessonData = LessonData(
    id: int,
    title: string,
    description: string,
    sequence: int,
    points: int,
    theme: Option<string>)

  /** A lesson together with its derived status. */
  datatype Lesson = Lesson(data: LessonData, status: Status)

  /** A row of the lessons table; `text` holds the per-language columns
    * (`title_en`, `description_hi`, ...) that are present and non-null. */
  datatype RawRow = RawRow(
    id: int,
    sequence: int,
    points: int,
    theme: Option<string>,
    text: map<string, string>)

  /** A row of the table recording which user completed which lesson. */
  datatype UserLesson = UserLesson(userId: string, lessonId: int)

  /** The remote store as the fetch sees it: the columns the lessons table
    * has, its rows (in ascending `sequence` order, as the query asks), and the
    * completion table. */
  datatype Store = Store(schema: set<string>, lessons: seq<RawRow>, userLessons: seq<UserLesson>)

  /** Whether each of the three requests of one fetch reaches the store. */
  datatype Connectivity = Connectivity(tier1Up: bool, tier2Up: bool, progressUp: bool)

  /** Rows obtained by one of the two query tiers, with the language whose
    * columns are to be read from them. */
  datatype Loaded = Loaded(rows: seq<RawRow>, lang: string)

  /** What the fetch hands to the screen. */
  datatype Progress = Progress(lessons: seq<Lesson>, lastCompletedId: int)

  /** `if (userId)` in the app: a session user id that is present and non-empty. */
  predicate HasUser(userId: Option<string>)
  {
    userId.Some? && userId.value != ""
  }

  // ---------------------------------------------------------------------------
  // Maximum of a non-empty sequence (`Math.max(...xs)`)
  // ---------------------------------------------------------------------------

  function SeqMax(s: seq<int>): (m: int)
    requires s != []
    ensures m in s
    ensures forall x :: x in s ==> x <= m
  {
    if |s| == 1 then s[0]
    else
      assert s == s[..|s| - 1] + [s[|s| - 1]];
      var m' := SeqMax(s[..|s| - 1]);
      if s[|s| - 1] > m' then s[|s| - 1] else m'
  }

  /** `Math.max(...xs)` guarded by `xs.length > 0`, else 0. */
  function MaxOrZero(s: seq<int>): int
  {
    if s == [] then 0 else SeqMax(s)
  }

  lemma SeqMaxSnoc(s: seq<int>, x: int)
    requires s != []
    ensures SeqMax(s + [x]) == if x > SeqMax(s) then x else SeqMax(s)
  {
    assert (s + [x])[..|s|] == s;
  }

  // ---------------------------------------------------------------------------
  // determineStatus
  // ---------------------------------------------------------------------------

  /** The sequences of the lessons whose id is in `completedIds`, in input order. */
  function CompletedSequences(lessons: seq<LessonData>, completedIds: set<int>): seq<int>
  {
    if lessons == [] then []
    else
      var last := lessons[|lessons| - 1];
      CompletedSequences(lessons[..|lessons| - 1], completedIds)
        + (if last.id in completedIds then [last.sequence] else [])
  }

  lemma {:induction false} CompletedSequencesMembers(lessons: seq<LessonData>, completedIds: set<int>)
    ensures forall x :: x in CompletedSequences(lessons, completedIds) <==>
      exists i :: 0 <= i < |lessons| && lessons[i].id in completedIds && lessons[i].sequence == x
  {
    if lessons != [] {
      var init := lessons[..|lessons| - 1];
      CompletedSequencesMembers(init, completedIds);
      forall x
        ensures x in CompletedSequences(lessons, completedIds) <==>
          exists i :: 0 <= i < |lessons| && lessons[i].id in completedIds && lessons[i].sequence == x
      {
        if x in CompletedSequences(lessons, completedIds) {
          if x in CompletedSequences(init, completedIds) {
            var i :| 0 <= i < |init| && init[i].id in completedIds && init[i].sequence == x;
            assert lessons[i] == init[i];
          } else {
            assert lessons[|lessons| - 1].id in completedIds && lessons[|lessons| - 1].sequence == x;
          }
        }
        if exists i :: 0 <= i < |lessons| && lessons[i].id in completedIds && lessons[i].sequence == x {
          var i :| 0 <= i < |lessons| && lessons[i].id in completedIds && lessons[i].sequence == x;
          if i < |init| {
            assert init[i] == lessons[i];
          }
        }
      }
    }
  }

  /** The frontier: the highest sequence among completed lessons when there is
    * a signed-in user, 0 when there is none or nothing is completed. */
  function Frontier(lessons: seq<LessonData>, completedIds: set<int>, userId: Option<string>): (f: int)
    ensures f != 0 ==> HasUser(userId)
    ensures f != 0 ==> exists i :: 0 <= i < |lessons| && lessons[i].id in completedIds && lessons[i].sequence == f
  {
    if HasUser(userId) then
      CompletedSequencesMembers(lessons, completedIds);
      MaxOrZero(CompletedSequences(lessons, completedIds))
    else 0
  }

  lemma FrontierIsMaxCompleted(lessons: seq<LessonData>, completedIds: set<int>, userId: Option<string>)
    ensures !HasUser(userId) ==> Frontier(lessons, completedIds, userId) == 0
    ensures (forall i :: 0 <= i < |lessons| ==> lessons[i].id !in completedIds) ==>
      Frontier(lessons, completedIds, userId) == 0
    ensures HasUser(userId) ==> forall i :: 0 <= i < |lessons| && lessons[i].id in completedIds ==>
      lessons[i].sequence <= Frontier(lessons, completedIds, userId)
    ensures HasUser(userId) && (exists i :: 0 <= i < |lessons| && lessons[i].id in completedIds) ==>
      exists i :: 0 <= i < |lessons| && lessons[i].id in completedIds &&
        lessons[i].sequence == Frontier(lessons, completedIds, userId)
  {
    CompletedSequencesMembers(lessons, completedIds);
    var s := CompletedSequences(lessons, completedIds);
    if HasUser(userId) {
      forall i | 0 <= i < |lessons| && lessons[i].id in completedIds
        ensures lessons[i].sequence in s
      {
      }
      if s == [] {
        assert forall i :: 0 <= i < |lessons| ==> lessons[i].id !in completedIds;
      } else {
        assert SeqMax(s) in s;
      }
    }
  }

  /** The status rule of the lesson list. The third branch (nothing completed
    * and sequence 1) is subsumed by the second, as the second ensures shows. */
  function StatusFor(lesson: LessonData, completedIds: set<int>, frontier: int): (s: Status)
    ensures s == Completed <==> lesson.id in completedIds
    ensures s == Current <==> lesson.id !in completedIds && lesson.sequence == frontier + 1
  {
    if lesson.id in completedIds then Completed
    else if lesson.sequence == frontier + 1 then Current
    else if frontier == 0 && lesson.sequence == 1 then Current
    else Locked
  }

  /** Every lesson paired with its status, in input order. */
  function Annotate(lessons: seq<LessonData>, completedIds: set<int>, frontier: int): (r: seq<Lesson>)
    ensures |r| == |lessons|
    ensures forall i :: 0 <= i < |r| ==>
      r[i].data == lessons[i] && r[i].status == StatusFor(lessons[i], completedIds, frontier)
  {
    if lessons == [] then []
    else
      var last := lessons[|lessons| - 1];
      Annotate(lessons[..|lessons| - 1], completedIds, frontier)
        + [Lesson(last, StatusFor(last, completedIds, frontier))]
  }

  /** `Math.max(...completedSequences)` over the lessons whose id is completed, or 0. */
  method HighestCompletedSequence(lessons: seq<LessonData>, completedIds: set<int>) returns (m: int)
    ensures m == MaxOrZero(CompletedSequences(lessons, completedIds))
  {
    m := 0;
    var found := false;
    var i := 0;
    while i < |lessons|
      invariant 0 <= i <= |lessons|
      invariant found <==> CompletedSequences(lessons[..i], completedIds) != []
      invariant m == MaxOrZero(CompletedSequences(lessons[..i], completedIds))
    {
      var lesson := lessons[i];
      assert lessons[..i + 1][..i] == lessons[..i];
      assert CompletedSequences(lessons[..i + 1], completedIds) == CompletedSequences(lessons[..i], completedIds)
        + (if lesson.id in completedIds then [lesson.sequence] else []);
      if lesson.id in completedIds {
        if found {
          SeqMaxSnoc(CompletedSequences(lessons[..i], completedIds), lesson.sequence);
        } else {
          assert CompletedSequences(lessons[..i + 1], completedIds) == [lesson.sequence];
        }
        if !found || lesson.sequence > m {
          m := lesson.sequence;
        }
        found := true;
      } else {
        assert CompletedSequences(lessons[..i + 1], completedIds) == CompletedSequences(lessons[..i], completedIds);
      }
      i := i + 1;
    }
    assert lessons[..i] == lessons;
  }

  /** determineStatus (app/lessons.tsx): computes the frontier, then labels each lesson. */
  method DetermineStatus(allLessons: seq<LessonData>, completedIds: set<int>, userId: Option<string>)
    returns (r: seq<Lesson>)
    ensures r == Annotate(allLessons, completedIds, Frontier(allLessons, completedIds, userId))
  {
    var lastCompletedId := 0;
    if HasUser(userId) {
      lastCompletedId := HighestCompletedSequence(allLessons, completedIds);
    }
    r := [];
    var k := 0;
    while k < |allLessons|
      invariant 0 <= k <= |allLessons|
      invariant r == Annotate(allLessons[..k], completedIds, lastCompletedId)
    {
      assert allLessons[..k + 1][..k] == allLessons[..k];
      var lesson := allLessons[k];
      var status := Locked;
      if lesson.id in completedIds {
        status := Completed;
      } else if lesson.sequence == lastCompletedId + 1 {
        status := Current;
      } else if lastCompletedId == 0 && lesson.sequence == 1 {
        status := Current;
      }
      assert status == StatusFor(lesson, completedIds, lastCompletedId);
      assert Annotate(allLessons[..k + 1], completedIds, lastCompletedId)
        == Annotate(allLessons[..k], completedIds, lastCompletedId) + [Lesson(lesson, status)];
      r := r + [Lesson(lesson, status)];
      k := k + 1;
    }
    assert allLessons[..k] == allLessons;
  }

  /** With distinct sequences at most one lesson is current. */
  lemma AtMostOneCurrent(lessons: seq<LessonData>, completedIds: set<int>, frontier: int, i: int, j: int)
    requires forall p, q :: 0 <= p < q < |lessons| ==> lessons[p].sequence != lessons[q].sequence
    requires 0 <= i < j < |lessons|
    ensures !(Annotate(lessons, completedIds, frontier)[i].status == Current &&
              Annotate(lessons, completedIds, frontier)[j].status == Current)
  {
  }

  /** Lessons with sequences 1..N, of which exactly the first k are completed:
    * lessons 1..k are completed, lesson k+1 is current, the rest are locked.
    * With k == 0 this is the bootstrap case, for guests too. */
  lemma ContiguousProgression(lessons: seq<LessonData>, completedIds: set<int>, k: nat, userId: Option<string>)
    requires forall i :: 0 <= i < |lessons| ==> lessons[i].sequence == i + 1
    requires forall i :: 0 <= i < |lessons| ==> (lessons[i].id in completedIds <==> i < k)
    requires k < |lessons|
    requires HasUser(userId) || k == 0
    ensures var r := Annotate(lessons, completedIds, Frontier(lessons, completedIds, userId));
      (forall i :: 0 <= i < k ==> r[i].status == Completed) &&
      r[k].status == Current &&
      (forall i :: k < i < |lessons| ==> r[i].status == Locked)
  {
    var f := Frontier(lessons, completedIds, userId);
    FrontierIsMaxCompleted(lessons, completedIds, userId);
    if k > 0 {
      assert lessons[k - 1].id in completedIds;
      var w :| 0 <= w < |lessons| && lessons[w].id in completedIds && lessons[w].sequence == f;
    }
    assert f == k;
  }

  // ---------------------------------------------------------------------------
  // fetchLessonsAndProgress: column projection and the two query tiers
  // ---------------------------------------------------------------------------

  /** The per-language column name, `${field}_${lang}`. */
  function Column(field: string, lang: string): string
  {
    field + "_" + lang
  }

  lemma ColumnInjective(field: string, lang1: string, lang2: string)
    requires Column(field, lang1) == Column(field, lang2)
    ensures lang1 == lang2
  {
    assert lang1 == Column(field, lang1)[|field| + 1..];
    assert lang2 == Column(field, lang2)[|field| + 1..];
  }

  /** The columns both tiers request: the fixed ones and the default-language text. */
  function BaseFields(): seq<string>
  {
    ["id", "sequence", "points", "theme",
     Column("title", DEFAULT_LANGUAGE), Column("description", DEFAULT_LANGUAGE)]
  }

  /** The tier-1 projection for `lang`. */
  function SelectFields(lang: string): (r: seq<string>)
    ensures |r| == if lang == DEFAULT_LANGUAGE then 6 else 8
    ensures r[..6] == BaseFields()
    ensures Column("title", lang) in r && Column("description", lang) in r
  {
    if lang != DEFAULT_LANGUAGE then BaseFields() + [Column("title", lang), Column("description", lang)]
    else BaseFields()
  }

  /** The tier-2 projection holds no column of a language other than the default. */
  lemma SafeFieldsAreDefaultOnly(lang: string)
    requires lang != DEFAULT_LANGUAGE
    ensures Column("title", lang) !in BaseFields()
    ensures Column("description", lang) !in BaseFields()
    ensures Column("title", lang) in SelectFields(lang) && Column("description", lang) in SelectFields(lang)
  {
    var t := Column("title", lang);
    var d := Column("description", lang);
    assert t[0] == 't' && d[0] == 'd';
    assert |t| >= 6 && |d| >= 12;
    if t == Column("title", DEFAULT_LANGUAGE) {
      ColumnInjective("title", lang, DEFAULT_LANGUAGE);
    }
    if d == Column("description", DEFAULT_LANGUAGE) {
      ColumnInjective("description", lang, DEFAULT_LANGUAGE);
    }
    assert "sequence"[0] == 's' && "points"[0] == 'p' && "id"[0] == 'i';
    assert "description_en"[0] == 'd' && "title_en"[0] == 't';
  }

  /** The row's text columns restricted to the requested ones. */
  function ProjectRow(row: RawRow, fields: seq<string>): (r: RawRow)
    ensures r.id == row.id && r.sequence == row.sequence && r.points == row.points && r.theme == row.theme
    ensures forall key :: key in r.text <==> key in row.text && key in fields
    ensures forall key :: key in r.text ==> r.text[key] == row.text[key]
  {
    row.(text := map key | key in row.text && key in fields :: row.text[key])
  }

  function Project(rows: seq<RawRow>, fields: seq<string>): (r: seq<RawRow>)
    ensures |r| == |rows|
    ensures forall i :: 0 <= i < |rows| ==> r[i] == ProjectRow(rows[i], fields)
  {
    seq(|rows|, i requires 0 <= i < |rows| => ProjectRow(rows[i], fields))
  }

  /** One `select` on the lessons table, ordered by sequence. It fails when the
    * request does not reach the store or names a column the table lacks. */
  function Select(store: Store, fields: seq<string>, up: bool): (r: Outcome<seq<RawRow>>)
    ensures r.Ok? <==> up && forall f :: f in fields ==> f in store.schema
    ensures r.Ok? ==> r.value == Project(store.lessons, fields)
  {
    if up && forall f :: f in fields ==> f in store.schema then Ok(Project(store.lessons, fields))
    else Err
  }

  /** The two query tiers: the localized query, and on its failure the
    * default-language query, which switches the language to the default. */
  function LoadRows(store: Store, lang: string, net: Connectivity): (r: Outcome<Loaded>)
    ensures r.Ok? ==> |r.value.rows| == |store.lessons|
    ensures r.Ok? ==> r.value.lang == lang || r.value.lang == DEFAULT_LANGUAGE
    ensures r.Ok? ==> forall i, key :: 0 <= i < |r.value.rows| && key in r.value.rows[i].text ==>
      key in SelectFields(r.value.lang)
  {
    match Select(store, SelectFields(lang), net.tier1Up)
    case Ok(rows) => Ok(Loaded(rows, lang))
    case Err =>
      match Select(store, BaseFields(), net.tier2Up)
      case Ok(rows) => Ok(Loaded(rows, DEFAULT_LANGUAGE))
      case Err => Err
  }

  lemma LoadRowsTiers(store: Store, lang: string, net: Connectivity)
    ensures Select(store, SelectFields(lang), net.tier1Up).Ok? ==>
      LoadRows(store, lang, net) == Ok(Loaded(Project(store.lessons, SelectFields(lang)), lang))
    ensures Select(store, SelectFields(lang), net.tier1Up).Err? && Select(store, BaseFields(), net.tier2Up).Ok? ==>
      LoadRows(store, lang, net) == Ok(Loaded(Project(store.lessons, BaseFields()), DEFAULT_LANGUAGE))
    ensures LoadRows(store, lang, net).Err? <==>
      Select(store, SelectFields(lang), net.tier1Up).Err? && Select(store, BaseFields(), net.tier2Up).Err?
  {
  }

  /** A schema error on the localized columns never makes the lessons unavailable
    * while the default-language query can run. */
  lemma TierTwoSafety(store: Store, lang: string, net: Connectivity)
    requires net.tier2Up
    requires forall f :: f in BaseFields() ==> f in store.schema
    ensures LoadRows(store, lang, net).Ok?
    ensures |LoadRows(store, lang, net).value.rows| == |store.lessons|
  {
    if !(net.tier1Up && forall f :: f in SelectFields(lang) ==> f in store.schema) {
      assert Select(store, SelectFields(lang), net.tier1Up).Err?;
    }
  }

  // ---------------------------------------------------------------------------
  // fetchLessonsAndProgress: field resolution
  // ---------------------------------------------------------------------------

  /** A JS-truthy string value: the column is present (not null) and non-empty. */
  predicate Truthy(text: map<string, string>, key: string)
  {
    key in text && text[key] != ""
  }

  /** `lesson[`${field}_${lang}`] || lesson[`${field}_en`] || placeholder`. */
  function ResolveField(text: map<string, string>, lang: string, field: string, placeholder: string): (r: string)
    ensures placeholder != "" ==> r != ""
    ensures r == placeholder || (Column(field, lang) in text && r == text[Column(field, lang)])
      || (Column(field, DEFAULT_LANGUAGE) in text && r == text[Column(field, DEFAULT_LANGUAGE)])
  {
    if Truthy(text, Column(field, lang)) then text[Column(field, lang)]
    else if Truthy(text, Column(field, DEFAULT_LANGUAGE)) then text[Column(field, DEFAULT_LANGUAGE)]
    else placeholder
  }

  /** The fallback order: localized value, then default value, then placeholder;
    * an empty string counts as missing. */
  lemma ResolutionOrder(text: map<string, string>, lang: string, field: string, placeholder: string)
    ensures Truthy(text, Column(field, lang)) ==>
      ResolveField(text, lang, field, placeholder) == text[Column(field, lang)]
    ensures !Truthy(text, Column(field, lang)) && Truthy(text, Column(field, DEFAULT_LANGUAGE)) ==>
      ResolveField(text, lang, field, placeholder) == text[Column(field, DEFAULT_LANGUAGE)]
    ensures !Truthy(text, Column(field, lang)) && !Truthy(text, Column(field, DEFAULT_LANGUAGE)) ==>
      ResolveField(text, lang, field, placeholder) == placeholder
  {
  }

  /** A lesson whose only text is in the default language shows that text verbatim
    * in every other language. */
  lemma DefaultTextFallback(text: map<string, string>, lang: string)
    requires lang != DEFAULT_LANGUAGE
    requires forall key :: Truthy(text, key) ==>
      key == Column("title", DEFAULT_LANGUAGE) || key == Column("description", DEFAULT_LANGUAGE)
    requires Truthy(text, Column("title", DEFAULT_LANGUAGE))
    requires Truthy(text, Column("description", DEFAULT_LANGUAGE))
    ensures ResolveField(text, lang, "title", TITLE_PLACEHOLDER) == text[Column("title", DEFAULT_LANGUAGE)]
    ensures ResolveField(text, lang, "description", DESCRIPTION_PLACEHOLDER)
      == text[Column("description", DEFAULT_LANGUAGE)]
  {
    SafeFieldsAreDefaultOnly(lang);
    assert !Truthy(text, Column("title", lang));
    assert !Truthy(text, Column("description", lang));
  }

  /** The `cleanedLessons` map: one resolved lesson per row. */
  function CleanRow(row: RawRow, lang: string): (d: LessonData)
    ensures d.id == row.id && d.sequence == row.sequence && d.points == row.points && d.theme == row.theme
    ensures d.title != "" && d.description != ""
  {
    LessonData(row.id,
               ResolveField(row.text, lang, "title", TITLE_PLACEHOLDER),
               ResolveField(row.text, lang, "description", DESCRIPTION_PLACEHOLDER),
               row.sequence, row.points, row.theme)
  }

  function Clean(rows: seq<RawRow>, lang: string): (r: seq<LessonData>)
    ensures |r| == |rows|
    ensures forall i :: 0 <= i < |rows| ==> r[i] == CleanRow(rows[i], lang)
  {
    seq(|rows|, i requires 0 <= i < |rows| => CleanRow(rows[i], lang))
  }

  /** Projecting onto columns that include both columns resolution reads does
    * not change the resolved lesson. */
  lemma CleanProjected(row: RawRow, fields: seq<string>, lang: string)
    requires Column("title", lang) in fields && Column("description", lang) in fields
    requires Column("title", DEFAULT_LANGUAGE) in fields && Column("description", DEFAULT_LANGUAGE) in fields
    ensures CleanRow(ProjectRow(row, fields), lang) == CleanRow(row, lang)
  {
  }

  // ---------------------------------------------------------------------------
  // fetchLessonsAndProgress: completions and the whole fetch
  // ---------------------------------------------------------------------------

  /** `user_lessons` ids of `userId`; a failed request yields `data` null, read as `[]`. */
  function ProgressIds(store: Store, userId: string, up: bool): (ids: set<int>)
    ensures forall id :: id in ids <==> up && UserLesson(userId, id) in store.userLessons
  {
    if up then set u | u in store.userLessons && u.userId == userId :: u.lessonId else {}
  }

  /** The sequences of the lessons labelled completed, in input order. */
  function CompletedStatusSequences(lessons: seq<Lesson>): seq<int>
  {
    if lessons == [] then []
    else
      var last := lessons[|lessons| - 1];
      CompletedStatusSequences(lessons[..|lessons| - 1])
        + (if last.status == Completed then [last.data.sequence] else [])
  }

  /** Labelling keeps the completed lessons: the sequences of the lessons
    * labelled completed are those of the lessons whose id is completed. */
  lemma {:induction false} AnnotatePreservesCompleted(lessons: seq<LessonData>, completedIds: set<int>, frontier: int)
    ensures CompletedStatusSequences(Annotate(lessons, completedIds, frontier))
      == CompletedSequences(lessons, completedIds)
  {
    if lessons != [] {
      var a := Annotate(lessons, completedIds, frontier);
      var init := lessons[..|lessons| - 1];
      AnnotatePreservesCompleted(init, completedIds, frontier);
      assert a[..|a| - 1] == Annotate(init, completedIds, frontier);
    }
  }

  /** The recomputation of `lastCompletedId`: the highest sequence among the
    * lessons labelled completed, or 0. */
  method HighestCompletedStatusSequence(lessons: seq<Lesson>) returns (m: int)
    ensures m == MaxOrZero(CompletedStatusSequences(lessons))
  {
    m := 0;
    var found := false;
    var i := 0;
    while i < |lessons|
      invariant 0 <= i <= |lessons|
      invariant found <==> CompletedStatusSequences(lessons[..i]) != []
      invariant m == MaxOrZero(CompletedStatusSequences(lessons[..i]))
    {
      var lesson := lessons[i];
      assert lessons[..i + 1][..i] == lessons[..i];
      assert CompletedStatusSequences(lessons[..i + 1]) == CompletedStatusSequences(lessons[..i])
        + (if lesson.status == Completed then [lesson.data.sequence] else []);
      if lesson.status == Completed {
        if found {
          SeqMaxSnoc(CompletedStatusSequences(lessons[..i]), lesson.data.sequence);
        } else {
          assert CompletedStatusSequences(lessons[..i + 1]) == [lesson.data.sequence];
        }
        if !found || lesson.data.sequence > m {
          m := lesson.data.sequence;
        }
        found := true;
      } else {
        assert CompletedStatusSequences(lessons[..i + 1]) == CompletedStatusSequences(lessons[..i]);
      }
      i := i + 1;
    }
    assert lessons[..i] == lessons;
  }

  /** The reference definition of the whole collection fetch. */
  function Fetch(langCode: string, session: Option<string>, store: Store, net: Connectivity): (r: Progress)
    ensures |r.lessons| == |store.lessons| || r == Progress([], 0)
    ensures forall i :: 0 <= i < |r.lessons| ==> r.lessons[i].data.title != "" && r.lessons[i].data.description != ""
  {
    match LoadRows(store, langCode, net)
    case Err => Progress([], 0)
    case Ok(loaded) =>
      var completedIds := if HasUser(session) then ProgressIds(store, session.value, net.progressUp) else {};
      var cleaned := Clean(loaded.rows, loaded.lang);
      var lessons := Annotate(cleaned, completedIds, Frontier(cleaned, completedIds, session));
      Progress(lessons, if HasUser(session) then MaxOrZero(CompletedStatusSequences(lessons)) else 0)
  }

  /** fetchLessonsAndProgress (app/lessons.tsx). The session's user id and the
    * reachability of each request are parameters. */
  method FetchLessonsAndProgress(langCode: string, session: Option<string>, store: Store, net: Connectivity)
    returns (r: Progress)
    ensures r == Fetch(langCode, session, store, net)
  {
    var userId := session;
    var isGuest := !HasUser(userId);

    var rawLessons: seq<RawRow> := [];
    var finalLangCode := langCode;

    var selectFields := BaseFields();
    if langCode != DEFAULT_LANGUAGE {
      selectFields := selectFields + [Column("title", langCode), Column("description", langCode)];
    }

    var tier1 := Select(store, selectFields, net.tier1Up);
    if tier1.Ok? {
      rawLessons := tier1.value;
    } else {
      finalLangCode := DEFAULT_LANGUAGE;
      var tier2 := Select(store, BaseFields(), net.tier2Up);
      if tier2.Err? {
        return Progress([], 0);
      }
      rawLessons := tier2.value;
    }
    assert LoadRows(store, langCode, net) == Ok(Loaded(rawLessons, finalLangCode));

    var completedIds: set<int> := {};
    if !isGuest {
      completedIds := ProgressIds(store, userId.value, net.progressUp);
    }

    var cleanedLessons := Clean(rawLessons, finalLangCode);
    var finalLessons := DetermineStatus(cleanedLessons, completedIds, userId);

    var lastCompletedId := 0;
    if !isGuest {
      lastCompletedId := HighestCompletedStatusSequence(finalLessons);
    }
    r := Progress(finalLessons, lastCompletedId);
  }

  /** What each tier delivers: tier 1 resolves the stored text in the requested
    * language, tier 2 in the default language, and when both fail the result is
    * empty with frontier 0. Ids, sequences, points and themes come from the rows. */
  lemma FetchTiers(langCode: string, session: Option<string>, store: Store, net: Connectivity)
    ensures var r := Fetch(langCode, session, store, net);
      var lang := if Select(store, SelectFields(langCode), net.tier1Up).Ok? then langCode else DEFAULT_LANGUAGE;
      if LoadRows(store, langCode, net).Err? then r == Progress([], 0)
      else
        |r.lessons| == |store.lessons| &&
        forall i :: 0 <= i < |store.lessons| ==>
          var row := store.lessons[i];
          var d := r.lessons[i].data;
          d.id == row.id && d.sequence == row.sequence && d.points == row.points && d.theme == row.theme &&
          d.title == ResolveField(row.text, lang, "title", TITLE_PLACEHOLDER) &&
          d.description == ResolveField(row.text, lang, "description", DESCRIPTION_PLACEHOLDER)
  {
    var t1 := Select(store, SelectFields(langCode), net.tier1Up);
    if LoadRows(store, langCode, net).Ok? {
      var lang := if t1.Ok? then langCode else DEFAULT_LANGUAGE;
      var fields := if t1.Ok? then SelectFields(langCode) else BaseFields();
      assert Column("title", DEFAULT_LANGUAGE) in BaseFields();
      assert Column("description", DEFAULT_LANGUAGE) in BaseFields();
      forall i | 0 <= i < |store.lessons|
        ensures CleanRow(ProjectRow(store.lessons[i], fields), lang) == CleanRow(store.lessons[i], lang)
      {
        CleanProjected(store.lessons[i], fields, lang);
      }
    }
  }

  /** A guest, and a user whose completion request fails, see no completed
    * lesson and frontier 0. */
  lemma FetchGuest(langCode: string, session: Option<string>, store: Store, net: Connectivity)
    requires !HasUser(session) || !net.progressUp
    ensures var r := Fetch(langCode, session, store, net);
      r.lastCompletedId == 0 && forall i :: 0 <= i < |r.lessons| ==> r.lessons[i].status != Completed
  {
    var r := Fetch(langCode, session, store, net);
    if LoadRows(store, langCode, net).Ok? {
      var loaded := LoadRows(store, langCode, net).value;
      var completedIds := if HasUser(session) then ProgressIds(store, session.value, net.progressUp) else {};
      assert completedIds == {};
      var cleaned := Clean(loaded.rows, loaded.lang);
      var f := Frontier(cleaned, completedIds, session);
      assert r.lessons == Annotate(cleaned, {}, f);
      AnnotatePreservesCompleted(cleaned, {}, f);
      NoCompletedSequences(cleaned);
    }
  }

  /** With no completed id, no sequence is collected. */
  lemma {:induction false} NoCompletedSequences(lessons: seq<LessonData>)
    ensures CompletedSequences(lessons, {}) == []
  {
    if lessons != [] {
      NoCompletedSequences(lessons[..|lessons| - 1]);
    }
  }

  /** The returned `lastCompletedId` is the frontier the labelling used: the
    * highest sequence among the lessons labelled completed, or 0. */
  lemma FetchLastCompletedIsFrontier(langCode: string, session: Option<string>, store: Store, net: Connectivity)
    ensures var r := Fetch(langCode, session, store, net);
      match LoadRows(store, langCode, net)
      case Err => r.lastCompletedId == 0
      case Ok(loaded) =>
        var completedIds := if HasUser(session) then ProgressIds(store, session.value, net.progressUp) else {};
        r.lastCompletedId == Frontier(Clean(loaded.rows, loaded.lang), completedIds, session)
    ensures var r := Fetch(langCode, session, store, net);
      HasUser(session) ==>
        (forall i :: 0 <= i < |r.lessons| && r.lessons[i].status == Completed ==>
          r.lessons[i].data.sequence <= r.lastCompletedId) &&
        ((exists i :: 0 <= i < |r.lessons| && r.lessons[i].status == Completed) ==>
          exists i :: 0 <= i < |r.lessons| && r.lessons[i].status == Completed &&
            r.lessons[i].data.sequence == r.lastCompletedId)
  {
    match LoadRows(store, langCode, net)
    case Err =>
    case Ok(loaded) =>
      var completedIds := if HasUser(session) then ProgressIds(store, session.value, net.progressUp) else {};
      var cleaned := Clean(loaded.rows, loaded.lang);
      var f := Frontier(cleaned, completedIds, session);
      AnnotatePreservesCompleted(cleaned, completedIds, f);
      FrontierIsMaxCompleted(cleaned, completedIds, session);
  }

  // ---------------------------------------------------------------------------
  // The lessons screen: sections and total score
  // ---------------------------------------------------------------------------

  /** `lessons.find(l => l.status === 'current')`. */
  function FindCurrent(lessons: seq<Lesson>): (r: Option<Lesson>)
    ensures r.None? <==> forall i :: 0 <= i < |lessons| ==> lessons[i].status != Current
    ensures r.Some? ==> r.value.status == Current
    ensures r.Some? ==> exists i :: 0 <= i < |lessons| && lessons[i] == r.value &&
                                    forall j :: 0 <= j < i ==> lessons[j].status != Current
  {
    if lessons == [] then None
    else if lessons[0].status == Current then Some(lessons[0])
    else
      var r := FindCurrent(lessons[1..]);
      assert forall i :: 0 < i < |lessons| ==> lessons[i] == lessons[1..][i - 1];
      r
  }

  /** `lessons.filter(l => l.status === s)`. */
  function WithStatus(lessons: seq<Lesson>, s: Status): (r: seq<Lesson>)
    ensures |r| <= |lessons|
    ensures forall i :: 0 <= i < |r| ==> r[i].status == s
  {
    if lessons == [] then []
    else
      var last := lessons[|lessons| - 1];
      WithStatus(lessons[..|lessons| - 1], s) + (if last.status == s then [last] else [])
  }

  lemma {:induction false} WithStatusMembers(lessons: seq<Lesson>, s: Status)
    ensures forall x :: x in WithStatus(lessons, s) <==> x in lessons && x.status == s
    ensures |WithStatus(lessons, s)| <= |lessons|
  {
    if lessons != [] {
      var init := lessons[..|lessons| - 1];
      WithStatusMembers(init, s);
      assert lessons == init + [lessons[|lessons| - 1]];
    }
  }

  /** The filter keeps input order: filtering a concatenation concatenates the filters. */
  lemma {:induction false} WithStatusAppend(a: seq<Lesson>, b: seq<Lesson>, s: Status)
    ensures WithStatus(a + b, s) == WithStatus(a, s) + WithStatus(b, s)
  {
    if b != [] {
      var b' := b[..|b| - 1];
      WithStatusAppend(a, b', s);
      assert (a + b)[..|a + b| - 1] == a + b';
    } else {
      assert a + b == a;
    }
  }

  /** Completed, current and locked lessons together account for every lesson. */
  lemma {:induction false} StatusesPartition(lessons: seq<Lesson>)
    ensures |WithStatus(lessons, Completed)| + |WithStatus(lessons, Current)| + |WithStatus(lessons, Locked)|
      == |lessons|
  {
    if lessons != [] {
      StatusesPartition(lessons[..|lessons| - 1]);
    }
  }

  /** `reduce((sum, l) => sum + l.points, 0)`. */
  function SumPoints(lessons: seq<Lesson>): (r: int)
    ensures (forall i :: 0 <= i < |lessons| ==> lessons[i].data.points >= 0) ==> r >= 0
  {
    if lessons == [] then 0 else SumPoints(lessons[..|lessons| - 1]) + lessons[|lessons| - 1].data.points
  }

  lemma SumPointsSnoc(lessons: seq<Lesson>, x: Lesson)
    ensures SumPoints(lessons + [x]) == SumPoints(lessons) + x.data.points
  {
    assert (lessons + [x])[..|lessons|] == lessons;
  }

  /** The points of the lessons whose id is completed, summed over the lesson list. */
  function CompletedPoints(lessons: seq<LessonData>, completedIds: set<int>): int
  {
    if lessons == [] then 0
    else
      var last := lessons[|lessons| - 1];
      CompletedPoints(lessons[..|lessons| - 1], completedIds) + (if last.id in completedIds then last.points else 0)
  }

  /** The sections of the lessons screen (the `useMemo`). */
  datatype Sections = Sections(current: Option<Lesson>, completed: seq<Lesson>, upcoming: seq<Lesson>, totalScore: int)

  function ScreenSections(lessons: seq<Lesson>): (r: Sections)
    ensures r.completed == WithStatus(lessons, Completed)
    ensures r.upcoming == WithStatus(lessons, Locked)
    ensures r.totalScore == SumPoints(WithStatus(lessons, Completed))
    ensures r.current == FindCurrent(lessons)
  {
    var completed := WithStatus(lessons, Completed);
    Sections(FindCurrent(lessons), completed, WithStatus(lessons, Locked), SumPoints(completed))
  }

  /** The displayed total score of a labelled list is the sum of the points of
    * the lessons the user completed. */
  lemma {:induction false} TotalScoreIsCompletedPoints(lessons: seq<LessonData>, completedIds: set<int>, frontier: int)
    ensures ScreenSections(Annotate(lessons, completedIds, frontier)).totalScore
      == CompletedPoints(lessons, completedIds)
  {
    if lessons != [] {
      var a := Annotate(lessons, completedIds, frontier);
      var init := lessons[..|lessons| - 1];
      TotalScoreIsCompletedPoints(init, completedIds, frontier);
      assert a[..|a| - 1] == Annotate(init, completedIds, frontier);
      var last := a[|a| - 1];
      var w0 := WithStatus(a[..|a| - 1], Completed);
      if last.status == Completed {
        assert WithStatus(a, Completed) == w0 + [last];
        SumPointsSnoc(w0, last);
      } else {
        assert WithStatus(a, Completed) == w0;
      }
    }
  }

  /** With non-negative points the total score lies between 0 and the sum of all points. */
  lemma {:induction false} TotalScoreBounds(lessons: seq<Lesson>)
    requires forall i :: 0 <= i < |lessons| ==> lessons[i].data.points >= 0
    ensures 0 <= ScreenSections(lessons).totalScore <= SumPoints(lessons)
  {
    if lessons != [] {
      var init := lessons[..|lessons| - 1];
      TotalScoreBounds(init);
      var last := lessons[|lessons| - 1];
      var w0 := WithStatus(init, Completed);
      if last.status == Completed {
        assert WithStatus(lessons, Completed) == w0 + [last];
        SumPointsSnoc(w0, last);
      } else {
        assert WithStatus(lessons, Completed) == w0;
      }
    }
  }

  predicate SortedByDescendingSequence(s: seq<Lesson>)
  {
    forall p, q :: 0 <= p < q < |s| ==> s[p].data.sequence >= s[q].data.sequence
  }

  /** `completedLessons.sort((a, b) => b.sequence - a.sequence)`, in place
    * (a stable insertion sort). */
  method SortByDescendingSequence(a: array<Lesson>)
    modifies a
    ensures SortedByDescendingSequence(a[..])
    ensures multiset(a[..]) == multiset(old(a[..]))
  {
    var i := 0;
    while i < a.Length
      invariant 0 <= i <= a.Length
      invariant SortedByDescendingSequence(a[..i])
      invariant multiset(a[..]) == multiset(old(a[..]))
    {
      SinkLast(a, i);
      i := i + 1;
    }
    assert a[..i] == a[..];
  }

  /** The first `n` lessons of `a` are sorted by descending sequence, except
    * that the lesson at `j` may be out of place with respect to those before it. */
  predicate SortedExceptBefore(a: array<Lesson>, n: int, j: int)
    reads a
    requires 0 <= n <= a.Length
  {
    (forall p, q :: 0 <= p < q < n && q != j ==> a[p].data.sequence >= a[q].data.sequence) &&
    (0 < j < n - 1 ==> a[j - 1].data.sequence >= a[j + 1].data.sequence)
  }

  /** Swapping the out-of-place lesson with its lower-sequence predecessor moves
    * the gap one place left. */
  method SinkStep(a: array<Lesson>, j: nat, n: nat)
    requires 0 < j < n <= a.Length
    requires SortedExceptBefore(a, n, j)
    requires a[j - 1].data.sequence < a[j].data.sequence
    modifies a
    ensures SortedExceptBefore(a, n, j - 1)
    ensures multiset(a[..]) == multiset(old(a[..]))
    ensures a[j - 1] == old(a[j]) && a[j] == old(a[j - 1])
    ensures a[..j - 1] == old(a[..j - 1]) && a[j + 1..] == old(a[j + 1..])
  {
    ghost var s := a[..];
    a[j - 1], a[j] := a[j], a[j - 1];
    assert a[..] == s[j - 1 := s[j]][j := s[j - 1]];
    forall p, q | 0 <= p < q < n && q != j - 1
      ensures a[p].data.sequence >= a[q].data.sequence
    {
      if p == j - 1 {
        if q != j {
          assert s[j - 1].data.sequence >= s[q].data.sequence;
        }
      } else if q == j && p < j - 1 {
        assert s[p].data.sequence >= s[j - 1].data.sequence;
      }
    }
  }

  /** One insertion step: moves `a[i]` left past the lessons of lower sequence. */
  method SinkLast(a: array<Lesson>, i: nat)
    requires i < a.Length
    requires SortedByDescendingSequence(a[..i])
    modifies a
    ensures SortedByDescendingSequence(a[..i + 1])
    ensures multiset(a[..]) == multiset(old(a[..]))
    ensures a[i + 1..] == old(a[i + 1..])
  {
    assert forall p :: 0 <= p < i ==> a[..i][p] == a[p];
    var j := i;
    while j > 0 && a[j - 1].data.sequence < a[j].data.sequence
      invariant 0 <= j <= i
      invariant SortedExceptBefore(a, i + 1, j)
      invariant multiset(a[..]) == multiset(old(a[..]))
      invariant a[i + 1..] == old(a[i + 1..])
    {
      SinkStep(a, j, i + 1);
      j := j - 1;
    }
    forall p, q | 0 <= p < q <= i && q == j
      ensures a[p].data.sequence >= a[q].data.sequence
    {
      if p < j - 1 {
        assert a[p].data.sequence >= a[j - 1].data.sequence;
      }
    }
  }
}
