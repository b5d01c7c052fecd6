/** The vertical layout of the exported PDF: a cursor (page, y) that moves
    down by fixed amounts per line and jumps to the top of a new page when
    it passes the bottom margin. The document is the list of text commands
    drawn, each with its page and coordinates. The layout is first given as
    functions; GeneratePdf computes it with the cursor updated step by step. */
module PdfLayout {
  import opened Text
  import opened WorkoutTypes

  const Margin := 20
  const ExerciseX := Margin + 5
  const DetailX := Margin + 10

  const FirstPage: nat := 1
  /** Where the title is drawn, and where the cursor goes after a page break. */
  const TopY := 20
  const TitleAdvance := 15
  const OverviewAdvance := 8
  const OverviewGap := 10
  /** A page break happens when the cursor is below pageHeight - BottomMargin. */
  const BottomMargin := 40
  const DayHeaderAdvance := 10
  const LineAdvance := 7
  const ExerciseGap := 3
  const DayGap := 10
  /** The footer's distance from the bottom of the page. */
  const FooterRise := 10

  /** The bullet before each detail line: the UTF-8 bytes of U+2022 read as
      Windows-1252, as the source text has it. */
  const Bullet := "\U{E2}\U{20AC}\U{A2} "

  datatype Cursor = Cursor(page: nat, y: int)

  /** One text call: the page it lands on, its coordinates and its text. */
  datatype Draw = Draw(page: nat, x: int, y: int, text: string)

  /** Draw commands produced, and where the cursor stands afterwards. */
  datatype Layout = Layout(draws: seq<Draw>, at: Cursor)

  // ---------------------------------------------------------------------
  // The layout as functions

  /** The check made before each day header and each exercise. */
  function BreakIfNeeded(c: Cursor, pageHeight: int): (b: Cursor)
    ensures b.page == c.page + 1 <==> c.y > pageHeight - BottomMargin
    ensures b.page == c.page || b.page == c.page + 1
    ensures b.page == c.page ==> b.y == c.y
    ensures b.page != c.page ==> b.y == TopY
    ensures b.y <= Max(TopY, pageHeight - BottomMargin)
  {
    if c.y > pageHeight - BottomMargin then Cursor(c.page + 1, TopY) else c
  }

  /** `lines`, each after `prefix`, one below the other from `c` on, `step` apart. */
  function Stacked(c: Cursor, x: int, step: int, prefix: string, lines: seq<string>): (ds: seq<Draw>)
    ensures |ds| == |lines|
  {
    seq(|lines|, i requires 0 <= i < |lines| => Draw(c.page, x, c.y + step * i, prefix + lines[i]))
  }

  /** Drawing one more line extends the stack by one command, `step` lower. */
  lemma StackedStep(c: Cursor, x: int, step: int, prefix: string, lines: seq<string>, n: nat)
    requires n < |lines|
    ensures Stacked(c, x, step, prefix, lines[..n + 1])
      == Stacked(c, x, step, prefix, lines[..n]) + [Draw(c.page, x, c.y + step * n, prefix + lines[n])]
  {
    var longer := Stacked(c, x, step, prefix, lines[..n + 1]);
    var shorter := Stacked(c, x, step, prefix, lines[..n]);
    assert forall i :: 0 <= i < n ==> longer[i] == shorter[i];
  }

  /** `line` is `caption`, then `value`, then `suffix`, so that each part
      can be read back from its position. */
  predicate Labelled(line: string, caption: string, value: string, suffix: string) {
    && |line| == |caption| + |value| + |suffix|
    && line[..|caption|] == caption
    && line[|caption|..|caption| + |value|] == value
    && line[|caption| + |value|..] == suffix
  }

  /** The five overview lines. */
  function OverviewLines(result: PlanResult): (lines: seq<string>)
    ensures |lines| == 5
  {
    [ "Goal: " + result.goal,
      "Fitness Level: " + result.fitnessLevel,
      "Duration: " + IntToString(result.totalWeeks) + " weeks",
      "Sessions: " + IntToString(result.schedule.daysPerWeek) + " days per week",
      "Session Duration: " + IntToString(result.schedule.sessionDuration) + " minutes" ]
  }

  /** Each overview line is a caption, its value and, for the numbers, its
      unit; every value can be read back from its line. */
  lemma OverviewLinesReadBack(result: PlanResult)
    ensures var lines := OverviewLines(result);
      && Labelled(lines[0], "Goal: ", result.goal, "")
      && Labelled(lines[1], "Fitness Level: ", result.fitnessLevel, "")
      && Labelled(lines[2], "Duration: ", IntToString(result.totalWeeks), " weeks")
      && Labelled(lines[3], "Sessions: ", IntToString(result.schedule.daysPerWeek), " days per week")
      && Labelled(lines[4], "Session Duration: ", IntToString(result.schedule.sessionDuration), " minutes")
  {
  }

  /** The title, then the overview lines: six commands on the first page
      at the left margin, top to bottom, all above where the days start. */
  function HeaderDraws(result: PlanResult): (h: seq<Draw>)
    ensures |h| == 6 && h[0].text == result.seoTitle
    ensures forall k :: 0 <= k < |h| ==> h[k].page == FirstPage && h[k].x == Margin
    ensures forall k, m :: 0 <= k < m < |h| ==> h[k].y < h[m].y
    ensures forall k :: 0 <= k < |h| ==> TopY <= h[k].y <= TopY + TitleAdvance + 4 * OverviewAdvance < BodyStart().y
  {
    [Draw(FirstPage, Margin, TopY, result.seoTitle)]
      + Stacked(Cursor(FirstPage, TopY + TitleAdvance), Margin, OverviewAdvance, "", OverviewLines(result))
  }

  /** Where the cursor stands when the first day is laid out. */
  function BodyStart(): Cursor
  {
    Cursor(FirstPage, TopY + TitleAdvance + 5 * OverviewAdvance + OverviewGap)
  }

  /** "name (equipment)": both fields can be read back from the line. */
  function ExerciseLine(e: WorkoutExercise): (line: string)
    ensures |line| == |e.name| + |e.equipment| + 3
    ensures line[..|e.name|] == e.name
    ensures line[|e.name|..|e.name| + 2] == " ("
    ensures line[|e.name| + 2..|line| - 1] == e.equipment
    ensures line[|line| - 1] == ')'
  {
    e.name + " (" + e.equipment + ")"
  }

  /** Duration, sets and reps, each after its label. */
  function DetailLines(e: WorkoutExercise): (lines: seq<string>)
    ensures |lines| == 3
    ensures |lines[0]| == 10 + |e.duration| && lines[0][..10] == "Duration: " && lines[0][10..] == e.duration
    ensures |lines[1]| == 6 + |e.sets| && lines[1][..6] == "Sets: " && lines[1][6..] == e.sets
    ensures |lines[2]| == 6 + |e.repetitions| && lines[2][..6] == "Reps: " && lines[2][6..] == e.repetitions
  {
    ["Duration: " + e.duration, "Sets: " + e.sets, "Reps: " + e.repetitions]
  }

  /** One exercise: its name line, then its three detail lines, then a gap. */
  function LayExercise(c: Cursor, e: WorkoutExercise, pageHeight: int): (l: Layout)
    ensures |l.draws| == 4
    ensures Lt(c, l.at) && l.at.page <= c.page + 1
    ensures forall k :: 0 <= k < |l.draws| ==> l.draws[k].page == l.at.page
  {
    var b := BreakIfNeeded(c, pageHeight);
    Layout(
      [Draw(b.page, ExerciseX, b.y, ExerciseLine(e))]
        + Stacked(Cursor(b.page, b.y + LineAdvance), DetailX, LineAdvance, Bullet, DetailLines(e)),
      Cursor(b.page, b.y + LineAdvance + 3 * LineAdvance + ExerciseGap))
  }

  /** The exercises one after another; the cursor moves forward, by at
      most one page per exercise. */
  function LayExercises(c: Cursor, es: seq<WorkoutExercise>, pageHeight: int): (l: Layout)
    ensures Le(c, l.at) && l.at.page <= c.page + |es|
    ensures es != [] ==> Lt(c, l.at)
  {
    if es == [] then Layout([], c)
    else
      var done := LayExercises(c, es[..|es| - 1], pageHeight);
      var last := LayExercise(done.at, es[|es| - 1], pageHeight);
      Layout(done.draws + last.draws, last.at)
  }

  /** One day: its header, its exercises, then a gap. */
  function LayDay(c: Cursor, d: DayWorkout, pageHeight: int): (l: Layout)
    ensures |l.draws| >= 1 && l.draws[0].text == d.day && l.draws[0].x == Margin
    ensures Lt(c, l.at) && l.at.page <= c.page + 1 + |d.exercises|
  {
    var b := BreakIfNeeded(c, pageHeight);
    var body := LayExercises(Cursor(b.page, b.y + DayHeaderAdvance), d.exercises, pageHeight);
    Layout([Draw(b.page, Margin, b.y, d.day)] + body.draws, Cursor(body.at.page, body.at.y + DayGap))
  }

  /** The days one after another; the cursor moves forward. */
  function LayDays(c: Cursor, days: seq<DayWorkout>, pageHeight: int): (l: Layout)
    ensures Le(c, l.at)
    ensures days != [] ==> Lt(c, l.at)
  {
    if days == [] then Layout([], c)
    else
      var done := LayDays(c, days[..|days| - 1], pageHeight);
      var last := LayDay(done.at, days[|days| - 1], pageHeight);
      Layout(done.draws + last.draws, last.at)
  }

  /** "Generated on <date>": the date can be read back from it. */
  function FooterText(date: string): (t: string)
    ensures Labelled(t, "Generated on ", date, "")
  {
    "Generated on " + date
  }

  /** The whole document. `date` stands for the locale date string and
      `footerX` for the x coordinate computed from the footer's text width. */
  function LayDocument(plan: WorkoutPlanResponse, pageHeight: int, date: string, footerX: int): (l: Layout)
    ensures |l.draws| >= 7 && l.at.page >= FirstPage
    ensures l.draws[0].text == plan.result.seoTitle
    ensures l.draws[|l.draws| - 1] == Draw(l.at.page, footerX, pageHeight - FooterRise, FooterText(date))
  {
    var body := LayDays(BodyStart(), plan.result.exercises, pageHeight);
    Layout(
      HeaderDraws(plan.result) + body.draws + [Draw(body.at.page, footerX, pageHeight - FooterRise, FooterText(date))],
      body.at)
  }

  // ---------------------------------------------------------------------
  // generatePDF, with the cursor kept in two variables

  /** The body of the per-exercise callback: page check, name line, the
      three detail lines, the gap. Returns the new cursor and what it drew. */
  method DrawExercise(page: nat, y: int, exercise: WorkoutExercise, pageHeight: int)
    returns (page': nat, y': int, drawn: seq<Draw>)
    ensures Layout(drawn, Cursor(page', y')) == LayExercise(Cursor(page, y), exercise, pageHeight)
  {
    page', y' := page, y;
    if y' > pageHeight - BottomMargin {
      page' := page' + 1;
      y' := TopY;
    }
    var name := Draw(page', ExerciseX, y', ExerciseLine(exercise));
    y' := y' + LineAdvance;
    var details;
    y', details := DrawLines(page', y', DetailX, LineAdvance, Bullet, DetailLines(exercise));
    drawn := [name] + details;
    y' := y' + ExerciseGap;
  }

  /** The body of the per-day callback: page check, header, the exercises, the gap. */
  method DrawDay(page: nat, y: int, day: DayWorkout, pageHeight: int)
    returns (page': nat, y': int, drawn: seq<Draw>)
    ensures Layout(drawn, Cursor(page', y')) == LayDay(Cursor(page, y), day, pageHeight)
  {
    page', y' := page, y;
    if y' > pageHeight - BottomMargin {
      page' := page' + 1;
      y' := TopY;
    }
    var header := Draw(page', Margin, y', day.day);
    y' := y' + DayHeaderAdvance;

    ghost var exercisesStart := Cursor(page', y');
    var body: seq<Draw> := [];
    var j := 0;
    while j < |day.exercises|
      invariant 0 <= j <= |day.exercises|
      invariant Layout(body, Cursor(page', y')) == LayExercises(exercisesStart, day.exercises[..j], pageHeight)
    {
      var more;
      LayExercisesStep(exercisesStart, day.exercises, j, pageHeight);
      page', y', more := DrawExercise(page', y', day.exercises[j], pageHeight);
      body := body + more;
      j := j + 1;
    }
    assert day.exercises[..j] == day.exercises;
    drawn := [header] + body;
    y' := y' + DayGap;
  }

  /** The title and the overview block, from the top of the first page;
      returns what it drew and the cursor's y afterwards. */
  method DrawHeader(result: PlanResult) returns (drawn: seq<Draw>, y: int)
    ensures drawn == HeaderDraws(result)
    ensures Cursor(FirstPage, y) == BodyStart()
  {
    y := TopY;
    var title := Draw(FirstPage, Margin, y, result.seoTitle);
    y := y + TitleAdvance;
    var overview;
    y, overview := DrawLines(FirstPage, y, Margin, OverviewAdvance, "", OverviewLines(result));
    drawn := [title] + overview;
    y := y + OverviewGap;
  }

  /** A `forEach` over lines of text: each is drawn after `prefix` at the
      cursor, which then moves `step` down. */
  method DrawLines(page: nat, y: int, x: int, step: int, prefix: string, lines: seq<string>)
    returns (y': int, drawn: seq<Draw>)
    ensures drawn == Stacked(Cursor(page, y), x, step, prefix, lines)
    ensures y' == y + step * |lines|
  {
    y', drawn := y, [];
    var n := 0;
    while n < |lines|
      invariant 0 <= n <= |lines|
      invariant y' == y + step * n
      invariant drawn == Stacked(Cursor(page, y), x, step, prefix, lines[..n])
    {
      StackedStep(Cursor(page, y), x, step, prefix, lines, n);
      drawn := drawn + [Draw(page, x, y', prefix + lines[n])];
      y' := y' + step;
      n := n + 1;
    }
    assert lines[..n] == lines;
  }

  /** Laying out one more exercise extends the layout of the ones before it. */
  lemma LayExercisesStep(c: Cursor, es: seq<WorkoutExercise>, j: nat, pageHeight: int)
    requires j < |es|
    ensures var done := LayExercises(c, es[..j], pageHeight);
      var next := LayExercise(done.at, es[j], pageHeight);
      LayExercises(c, es[..j + 1], pageHeight) == Layout(done.draws + next.draws, next.at)
  {
    assert es[..j + 1][..j] == es[..j];
  }

  /** Laying out one more day extends the layout of the days before it. */
  lemma LayDaysStep(c: Cursor, days: seq<DayWorkout>, i: nat, pageHeight: int)
    requires i < |days|
    ensures var done := LayDays(c, days[..i], pageHeight);
      var next := LayDay(done.at, days[i], pageHeight);
      LayDays(c, days[..i + 1], pageHeight) == Layout(done.draws + next.draws, next.at)
  {
    assert days[..i + 1][..i] == days[..i];
  }

  /** The loop over the days, from the cursor the overview leaves. */
  method DrawDays(page: nat, y: int, days: seq<DayWorkout>, pageHeight: int)
    returns (page': nat, y': int, drawn: seq<Draw>)
    ensures Layout(drawn, Cursor(page', y')) == LayDays(Cursor(page, y), days, pageHeight)
  {
    page', y', drawn := page, y, [];
    var i := 0;
    while i < |days|
      invariant 0 <= i <= |days|
      invariant Layout(drawn, Cursor(page', y')) == LayDays(Cursor(page, y), days[..i], pageHeight)
    {
      var more;
      LayDaysStep(Cursor(page, y), days, i, pageHeight);
      page', y', more := DrawDay(page', y', days[i], pageHeight);
      drawn := drawn + more;
      i := i + 1;
    }
    assert days[..i] == days;
  }

  /** generatePDF, reduced to the text it draws and where: returns the draw
      commands in order and the number of pages. */
  method GeneratePdf(plan: WorkoutPlanResponse, pageHeight: int, date: string, footerX: int)
    returns (draws: seq<Draw>, pageCount: nat)
    ensures draws == LayDocument(plan, pageHeight, date, footerX).draws
    ensures pageCount == LayDocument(plan, pageHeight, date, footerX).at.page
  {
    var header, y := DrawHeader(plan.result);
    var page, body;
    page, y, body := DrawDays(FirstPage, y, plan.result.exercises, pageHeight);
    draws := header + body + [Draw(page, footerX, pageHeight - FooterRise, FooterText(date))];
    pageCount := page;
  }

  // ---------------------------------------------------------------------
  // What the layout guarantees

  /** The title at y = 20 on the first page, then Goal, Fitness Level,
      Duration, Sessions and Session Duration at y = 35, 43, 51, 59, 67;
      the first day's page check happens at y = 85. */
  lemma HeaderPlacement(plan: WorkoutPlanResponse, pageHeight: int, date: string, footerX: int)
    ensures var r := plan.result;
      var ds := LayDocument(plan, pageHeight, date, footerX).draws;
      && |ds| >= 7
      && ds[0] == Draw(1, 20, 20, r.seoTitle)
      && ds[1] == Draw(1, 20, 35, "Goal: " + r.goal)
      && ds[2] == Draw(1, 20, 43, "Fitness Level: " + r.fitnessLevel)
      && ds[3] == Draw(1, 20, 51, "Duration: " + IntToString(r.totalWeeks) + " weeks")
      && ds[4] == Draw(1, 20, 59, "Sessions: " + IntToString(r.schedule.daysPerWeek) + " days per week")
      && ds[5] == Draw(1, 20, 67, "Session Duration: " + IntToString(r.schedule.sessionDuration) + " minutes")
    ensures BodyStart() == Cursor(1, 85)
  {
    var r := plan.result;
    var lines := OverviewLines(r);
    var header := HeaderDraws(r);
    var body := LayDays(BodyStart(), r.exercises, pageHeight);
    var footer := Draw(body.at.page, footerX, pageHeight - FooterRise, FooterText(date));
    assert LayDocument(plan, pageHeight, date, footerX).draws == header + body.draws + [footer];
    forall k | 0 <= k < 6
      ensures LayDocument(plan, pageHeight, date, footerX).draws[k] == header[k]
    {
      IndexFront(header, body.draws, [footer], k);
    }
    assert forall k :: 0 <= k < 5 ==> "" + lines[k] == lines[k];
  }

  /** An exercise is drawn from the cursor left by the page check: the line
      "name (equipment)" there, then Duration, Sets and Reps 7 apart, and the
      cursor ends 31 below where the name line was drawn. */
  lemma ExerciseBlock(c: Cursor, e: WorkoutExercise, pageHeight: int)
    ensures var b := BreakIfNeeded(c, pageHeight);
      var l := LayExercise(c, e, pageHeight);
      && l.draws == [ Draw(b.page, 25, b.y, e.name + " (" + e.equipment + ")"),
                      Draw(b.page, 30, b.y + 7, Bullet + "Duration: " + e.duration),
                      Draw(b.page, 30, b.y + 14, Bullet + "Sets: " + e.sets),
                      Draw(b.page, 30, b.y + 21, Bullet + "Reps: " + e.repetitions) ]
      && l.at == Cursor(b.page, b.y + 31)
  {
    var b := BreakIfNeeded(c, pageHeight);
    var details := Stacked(Cursor(b.page, b.y + LineAdvance), DetailX, LineAdvance, Bullet, DetailLines(e));
    assert details[0].y == b.y + 7 && details[1].y == b.y + 14 && details[2].y == b.y + 21;
    assert Bullet + ("Duration: " + e.duration) == Bullet + "Duration: " + e.duration;
    assert Bullet + ("Sets: " + e.sets) == Bullet + "Sets: " + e.sets;
    assert Bullet + ("Reps: " + e.repetitions) == Bullet + "Reps: " + e.repetitions;
  }

  /** Exercises that all fit above the bottom margin stay on the page, 31 apart. */
  lemma {:induction false} ExercisesWithoutBreak(c: Cursor, es: seq<WorkoutExercise>, pageHeight: int)
    requires |es| == 0 || c.y + 31 * (|es| - 1) <= pageHeight - BottomMargin
    ensures LayExercises(c, es, pageHeight).at == Cursor(c.page, c.y + 31 * |es|)
    ensures forall d :: d in LayExercises(c, es, pageHeight).draws ==> d.page == c.page
  {
    if es != [] {
      var init := es[..|es| - 1];
      ExercisesWithoutBreak(c, init, pageHeight);
    }
  }

  /** A day whose exercises all fit: header where the page check leaves the
      cursor, exercises from 10 below it, and the cursor ends a further 10
      below the last exercise. */
  lemma DayWithoutBreak(c: Cursor, d: DayWorkout, pageHeight: int)
    requires var b := BreakIfNeeded(c, pageHeight);
      |d.exercises| == 0 || b.y + 10 + 31 * (|d.exercises| - 1) <= pageHeight - BottomMargin
    ensures var b := BreakIfNeeded(c, pageHeight);
      var l := LayDay(c, d, pageHeight);
      && l.draws[0] == Draw(b.page, 20, b.y, d.day)
      && l.at == Cursor(b.page, b.y + 10 + 31 * |d.exercises| + 10)
      && forall k :: 0 <= k < |l.draws| ==> l.draws[k].page == b.page
  {
    var b := BreakIfNeeded(c, pageHeight);
    ExercisesWithoutBreak(Cursor(b.page, b.y + DayHeaderAdvance), d.exercises, pageHeight);
  }

  // Counting the draw commands

  /** One header per day and four lines per exercise. */
  function DrawCount(days: seq<DayWorkout>): nat
  {
    if days == [] then 0 else DrawCount(days[..|days| - 1]) + 1 + 4 * |days[|days| - 1].exercises|
  }

  lemma {:induction false} ExercisesDrawCount(c: Cursor, es: seq<WorkoutExercise>, pageHeight: int)
    ensures |LayExercises(c, es, pageHeight).draws| == 4 * |es|
  {
    if es != [] {
      ExercisesDrawCount(c, es[..|es| - 1], pageHeight);
    }
  }

  lemma {:induction false} DaysDrawCount(c: Cursor, days: seq<DayWorkout>, pageHeight: int)
    ensures |LayDays(c, days, pageHeight).draws| == DrawCount(days)
  {
    if days != [] {
      var done := LayDays(c, days[..|days| - 1], pageHeight);
      DaysDrawCount(c, days[..|days| - 1], pageHeight);
      var b := BreakIfNeeded(done.at, pageHeight);
      ExercisesDrawCount(Cursor(b.page, b.y + DayHeaderAdvance), days[|days| - 1].exercises, pageHeight);
    }
  }

  /** The first day's header is the first thing drawn after the overview. */
  lemma {:induction false} FirstDayFirst(c: Cursor, days: seq<DayWorkout>, pageHeight: int)
    requires days != []
    ensures var b := BreakIfNeeded(c, pageHeight);
      |LayDays(c, days, pageHeight).draws| > 0 && LayDays(c, days, pageHeight).draws[0] == Draw(b.page, Margin, b.y, days[0].day)
  {
    var init := days[..|days| - 1];
    if init != [] {
      FirstDayFirst(c, init, pageHeight);
      assert init[0] == days[0];
    }
  }

  lemma FirstDayHeader(plan: WorkoutPlanResponse, pageHeight: int, date: string, footerX: int)
    requires plan.result.exercises != []
    ensures var b := BreakIfNeeded(Cursor(1, 85), pageHeight);
      var ds := LayDocument(plan, pageHeight, date, footerX).draws;
      |ds| > 6 && ds[6] == Draw(b.page, 20, b.y, plan.result.exercises[0].day)
  {
    FirstDayFirst(BodyStart(), plan.result.exercises, pageHeight);
  }

  // Ordering: lexicographic on (page, y)

  predicate Lt(a: Cursor, b: Cursor) { a.page < b.page || (a.page == b.page && a.y < b.y) }

  predicate Le(a: Cursor, b: Cursor) { a.page < b.page || (a.page == b.page && a.y <= b.y) }

  function Pos(d: Draw): Cursor { Cursor(d.page, d.y) }

  /** Pages never go back, and within a page y strictly increases. */
  ghost predicate Ordered(ds: seq<Draw>) {
    forall i, j :: 0 <= i < j < |ds| ==> Lt(Pos(ds[i]), Pos(ds[j]))
  }

  /** Every command is at or after `lo` and strictly before `hi`. */
  ghost predicate Within(ds: seq<Draw>, lo: Cursor, hi: Cursor) {
    forall i :: 0 <= i < |ds| ==> Le(lo, Pos(ds[i])) && Lt(Pos(ds[i]), hi)
  }

  lemma ConcatOrdered(a: seq<Draw>, b: seq<Draw>, lo: Cursor, mid: Cursor, hi: Cursor)
    requires Ordered(a) && Within(a, lo, mid) && Ordered(b) && Within(b, mid, hi)
    requires Le(lo, mid) && Le(mid, hi)
    ensures Ordered(a + b) && Within(a + b, lo, hi)
  {
  }

  lemma ExerciseOrdered(c: Cursor, e: WorkoutExercise, pageHeight: int)
    ensures var l := LayExercise(c, e, pageHeight);
      Ordered(l.draws) && Within(l.draws, c, l.at) && Le(c, l.at)
  {
    ExerciseBlock(c, e, pageHeight);
  }

  lemma {:induction false} ExercisesOrdered(c: Cursor, es: seq<WorkoutExercise>, pageHeight: int)
    ensures var l := LayExercises(c, es, pageHeight);
      Ordered(l.draws) && Within(l.draws, c, l.at) && Le(c, l.at)
  {
    if es != [] {
      var done := LayExercises(c, es[..|es| - 1], pageHeight);
      var last := LayExercise(done.at, es[|es| - 1], pageHeight);
      ExercisesOrdered(c, es[..|es| - 1], pageHeight);
      ExerciseOrdered(done.at, es[|es| - 1], pageHeight);
      ConcatOrdered(done.draws, last.draws, c, done.at, last.at);
    }
  }

  lemma DayOrdered(c: Cursor, d: DayWorkout, pageHeight: int)
    ensures var l := LayDay(c, d, pageHeight);
      Ordered(l.draws) && Within(l.draws, c, l.at) && Le(c, l.at)
  {
    var b := BreakIfNeeded(c, pageHeight);
    var start := Cursor(b.page, b.y + DayHeaderAdvance);
    var body := LayExercises(start, d.exercises, pageHeight);
    ExercisesOrdered(start, d.exercises, pageHeight);
    var l := LayDay(c, d, pageHeight);
    ConcatOrdered([Draw(b.page, Margin, b.y, d.day)], body.draws, c, start, l.at);
  }

  /** The days section is drawn top to bottom, page after page, between the
      cursor it starts from and the cursor it leaves. */
  lemma {:induction false} DaysOrdered(c: Cursor, days: seq<DayWorkout>, pageHeight: int)
    ensures var l := LayDays(c, days, pageHeight);
      Ordered(l.draws) && Within(l.draws, c, l.at) && Le(c, l.at)
  {
    if days != [] {
      var done := LayDays(c, days[..|days| - 1], pageHeight);
      var last := LayDay(done.at, days[|days| - 1], pageHeight);
      DaysOrdered(c, days[..|days| - 1], pageHeight);
      DayOrdered(done.at, days[|days| - 1], pageHeight);
      ConcatOrdered(done.draws, last.draws, c, done.at, last.at);
    }
  }

  // Placement on the page

  /** Day headers and exercise lines sit no lower than the page-break
      threshold (or the top line, on a page too short for any); detail lines
      at most three lines below that. Detail lines are the only commands
      drawn at x = DetailX, which is how they are told apart here. */
  ghost predicate Placed(ds: seq<Draw>, pageHeight: int) {
    forall i :: 0 <= i < |ds| ==>
      && (ds[i].x != DetailX ==> ds[i].y <= Max(TopY, pageHeight - BottomMargin))
      && ds[i].y <= Max(TopY, pageHeight - BottomMargin) + 3 * LineAdvance
  }

  lemma {:induction false} ExercisesPlaced(c: Cursor, es: seq<WorkoutExercise>, pageHeight: int)
    ensures Placed(LayExercises(c, es, pageHeight).draws, pageHeight)
  {
    if es != [] {
      var done := LayExercises(c, es[..|es| - 1], pageHeight);
      ExercisesPlaced(c, es[..|es| - 1], pageHeight);
      ExerciseBlock(done.at, es[|es| - 1], pageHeight);
    }
  }

  lemma {:induction false} DaysPlaced(c: Cursor, days: seq<DayWorkout>, pageHeight: int)
    ensures Placed(LayDays(c, days, pageHeight).draws, pageHeight)
  {
    if days != [] {
      var done := LayDays(c, days[..|days| - 1], pageHeight);
      DaysPlaced(c, days[..|days| - 1], pageHeight);
      var b := BreakIfNeeded(done.at, pageHeight);
      ExercisesPlaced(Cursor(b.page, b.y + DayHeaderAdvance), days[|days| - 1].exercises, pageHeight);
    }
  }

  // The document as a whole

  /** One footer, last, at pageHeight - 10 on the last page; before it the
      title, the five overview lines and the days' commands. On a page tall
      enough for the footer to sit below the overview (78 units or more),
      the whole document is ordered; the body always is. */
  lemma DocumentShape(plan: WorkoutPlanResponse, pageHeight: int, date: string, footerX: int)
    ensures var doc := LayDocument(plan, pageHeight, date, footerX);
      var ds := doc.draws;
      && |ds| == 6 + DrawCount(plan.result.exercises) + 1
      && ds[|ds| - 1] == Draw(doc.at.page, footerX, pageHeight - 10, "Generated on " + date)
      && doc.at.page >= 1
      && (forall k :: 0 <= k < |ds| ==> 1 <= ds[k].page <= doc.at.page)
      && Ordered(ds[..|ds| - 1])
      && (pageHeight >= 78 ==> Ordered(ds))
  {
    DocumentCount(plan, pageHeight, date, footerX);
    DocumentOrdered(plan, pageHeight, date, footerX);
  }

  lemma DocumentCount(plan: WorkoutPlanResponse, pageHeight: int, date: string, footerX: int)
    ensures var doc := LayDocument(plan, pageHeight, date, footerX);
      var ds := doc.draws;
      && |ds| == 6 + DrawCount(plan.result.exercises) + 1
      && (forall k :: 0 <= k < |ds| ==> 1 <= ds[k].page <= doc.at.page)
  {
    var body := LayDays(BodyStart(), plan.result.exercises, pageHeight);
    var header := HeaderDraws(plan.result);
    DaysDrawCount(BodyStart(), plan.result.exercises, pageHeight);
    DaysOrdered(BodyStart(), plan.result.exercises, pageHeight);
    var ds := LayDocument(plan, pageHeight, date, footerX).draws;
    assert ds == header + body.draws + [Draw(body.at.page, footerX, pageHeight - FooterRise, FooterText(date))];
    forall k | 0 <= k < |ds|
      ensures 1 <= ds[k].page <= body.at.page
    {
      if |header| <= k < |ds| - 1 {
        IndexMiddle(header, body.draws, [Draw(body.at.page, footerX, pageHeight - FooterRise, FooterText(date))], k);
      }
    }
  }

  lemma DocumentOrdered(plan: WorkoutPlanResponse, pageHeight: int, date: string, footerX: int)
    ensures var ds := LayDocument(plan, pageHeight, date, footerX).draws;
      && Ordered(ds[..|ds| - 1])
      && (pageHeight >= 78 ==> Ordered(ds))
  {
    var days := plan.result.exercises;
    var body := LayDays(BodyStart(), days, pageHeight);
    var header := HeaderDraws(plan.result);
    DaysOrdered(BodyStart(), days, pageHeight);
    assert Ordered(header) && Within(header, Cursor(1, 20), BodyStart());
    ConcatOrdered(header, body.draws, Cursor(1, 20), BodyStart(), body.at);
    var ds := LayDocument(plan, pageHeight, date, footerX).draws;
    assert ds[..|ds| - 1] == header + body.draws;
    var footer := Draw(body.at.page, footerX, pageHeight - FooterRise, FooterText(date));
    if pageHeight >= 78 {
      DaysPlaced(BodyStart(), days, pageHeight);
      assert Within(header, Cursor(1, 20), Pos(footer));
      PlacedBeforeFooter(body.draws, BodyStart(), body.at, pageHeight);
      WithinConcat(header, body.draws, Cursor(1, 20), BodyStart(), Pos(footer));
      assert ds == (header + body.draws) + [footer];
    }
  }

  /** On a page of at least 78 units, every placed command is above the
      footer line of the last page. */
  lemma PlacedBeforeFooter(ds: seq<Draw>, lo: Cursor, hi: Cursor, pageHeight: int)
    requires pageHeight >= 78
    requires Within(ds, lo, hi) && Placed(ds, pageHeight)
    ensures Within(ds, lo, Cursor(hi.page, pageHeight - FooterRise))
  {
  }

  lemma WithinConcat(a: seq<Draw>, b: seq<Draw>, lo: Cursor, mid: Cursor, hi: Cursor)
    requires Within(a, lo, hi) && Within(b, mid, hi) && Le(lo, mid)
    ensures Within(a + b, lo, hi)
  {
    forall k | |a| <= k < |a + b|
      ensures Le(lo, Pos((a + b)[k])) && Lt(Pos((a + b)[k]), hi)
    {
      assert (a + b)[k] == b[k - |a|];
    }
  }
}
