/**
  Syllabus tracking: the progress colour bands, the per-role dispatch, the
  "students need additional support" alert and the literal subject and class tables.
 */
module Syllabus {
  import opened Common

  /** Badge variants, worst first. */
  datatype Band = Destructive | Warning | Success

  function BandRank(b: Band): nat {
    match b
    case Destructive => 0
    case Warning => 1
    case Success => 2
  }

  /** Progress of 80 or more is success, 60 up to 80 is warning, below 60 destructive. */
  function ProgressColor(progress: int): (b: Band)
    ensures b == Success <==> progress >= 80
    ensures b == Warning <==> 60 <= progress < 80
    ensures b == Destructive <==> progress < 60
  {
    if progress >= 80 then Success
    else if progress >= 60 then Warning
    else Destructive
  }

  /** More progress never earns a worse band. */
  lemma ProgressColorMonotone(p: int, q: int)
    requires p <= q
    ensures BandRank(ProgressColor(p)) <= BandRank(ProgressColor(q))
  {
  }

  /** What the component renders for a role string. */
  datatype Rendered = StudentSyllabus | ClassSyllabus | NothingRendered

  function Render(role: string): (r: Rendered)
    ensures r == StudentSyllabus <==> role == "student"
    ensures r == ClassSyllabus <==> role == "teacher"
    ensures r == NothingRendered <==> role != "student" && role != "teacher"
  {
    if role == "student" then StudentSyllabus
    else if role == "teacher" then ClassSyllabus
    else NothingRendered
  }

  /** A student's subject row; `progress` is a percentage. */
  datatype Subject = Subject(name: string, chapters: nat, completed: nat, progress: nat)

  /** A teacher's class row. */
  datatype ClassRow = ClassRow(
    name: string, students: nat, chapters: nat, completed: nat,
    avgProgress: nat, onTrack: nat, behind: nat)

  const Subjects: seq<Subject> := [
    Subject("Mathematics", 12, 8, 67),
    Subject("Physics", 10, 6, 60),
    Subject("Chemistry", 14, 9, 64)
  ]

  const OverallProgress: nat := 64

  const Classes: seq<ClassRow> := [
    ClassRow("Class 10-A Mathematics", 30, 12, 8, 67, 25, 5),
    ClassRow("Class 10-B Mathematics", 28, 12, 7, 58, 20, 8)
  ]

  /** The class card shows the support alert exactly when some students are behind. */
  predicate ShowSupportAlert(c: ClassRow) {
    c.behind > 0
  }

  /** `percent` is `part / whole` as a percentage rounded half up. */
  predicate RoundedPercent(part: int, whole: int, percent: int) {
    whole > 0 && RoundedQuotient(100 * part, whole, percent)
  }

  predicate WellFormedSubject(s: Subject) {
    s.completed <= s.chapters && RoundedPercent(s.completed, s.chapters, s.progress)
  }

  predicate WellFormedClass(c: ClassRow) {
    && c.completed <= c.chapters
    && c.onTrack + c.behind == c.students
    && RoundedPercent(c.completed, c.chapters, c.avgProgress)
  }

  /** In a consistent class row the alert shows exactly when not every student is on
      track, and it names how many are not. */
  lemma SupportAlertMeansBehind(c: ClassRow)
    requires WellFormedClass(c)
    ensures ShowSupportAlert(c) <==> c.onTrack < c.students
    ensures ShowSupportAlert(c) ==> c.behind == c.students - c.onTrack
  {
  }

  /** Every literal row is consistent: completed chapters never exceed the total, the
      shown percentages are the rounded chapter ratios, the on-track and behind counts
      add up to the class size, and the overall figure is the rounded mean. */
  lemma TablesWellFormed()
    ensures forall i :: 0 <= i < |Subjects| ==> WellFormedSubject(Subjects[i])
    ensures forall i :: 0 <= i < |Classes| ==> WellFormedClass(Classes[i])
    ensures forall i :: 0 <= i < |Classes| ==> ShowSupportAlert(Classes[i])
    ensures RoundedQuotient(Subjects[0].progress + Subjects[1].progress + Subjects[2].progress,
                            |Subjects|, OverallProgress)
  {
  }
}
