/**
  The teacher's panel of today's lessons: each lesson's status picks a badge variant, the
  badge shows the status with its first hyphen turned into a space, and the status and
  attendance decide which extra lines a lesson card shows.
 */
module TodaysWork {
  import opened Common

  datatype Lesson = Lesson(
    subject: string, topic: string, className: string, time: string,
    status: string, attendance: string)

  const Lessons: seq<Lesson> := [
    Lesson("Mathematics", "Quadratic Equations - Chapter 4", "Class 10-A",
      "09:00 - 10:00 AM", "completed", "28/30"),
    Lesson("Physics", "Motion and Force - Lab Exercise", "Class 10-B",
      "11:00 - 12:00 PM", "in-progress", "25/30"),
    Lesson("Chemistry", "Periodic Table - Elements Study", "Class 10-A",
      "02:00 - 03:00 PM", "upcoming", "-")
  ]

  datatype Variant = Success | Warning | Secondary

  /** Badge variant: done lessons are green, the running one amber, the rest neutral. */
  function StatusVariant(status: string): (v: Variant)
    ensures v == Success <==> status == "completed"
    ensures v == Warning <==> status == "in-progress"
    ensures v == Secondary <==> status != "completed" && status != "in-progress"
  {
    match status
    case "completed" => Success
    case "in-progress" => Warning
    case "upcoming" => Secondary
    case _ => Secondary
  }

  /** `i` is the position of the first `c` in `s`. */
  predicate IsFirst(s: string, c: char, i: int) {
    0 <= i < |s| && s[i] == c && forall j :: 0 <= j < i ==> s[j] != c
  }

  /** The index of the first `c` in `s`, if any. */
  function FirstIndex(s: string, c: char): (k: Option<nat>)
    ensures k.None? <==> c !in s
    ensures k.Some? ==> IsFirst(s, c, k.value)
  {
    if c !in s then None
    else
      FirstExists(s, c);
      var k :| IsFirst(s, c, k);
      Some(k)
  }

  /** A character that occurs has a first occurrence. */
  lemma {:induction false} FirstExists(s: string, c: char)
    requires c in s
    ensures exists k :: IsFirst(s, c, k)
  {
    if s[0] == c {
      assert IsFirst(s, c, 0);
    } else {
      FirstExists(s[1..], c);
      var k :| IsFirst(s[1..], c, k);
      assert IsFirst(s, c, k + 1);
    }
  }

  /** `s.replace(c, d)` with a one-character pattern: only the first `c` is replaced. */
  function ReplaceFirst(s: string, c: char, d: char): (r: string)
    ensures |r| == |s|
    ensures c !in s ==> r == s
    ensures c in s ==>
      var k := FirstIndex(s, c).value;
      && r[k] == d
      && forall i :: 0 <= i < |s| && i != k ==> r[i] == s[i]
  {
    match FirstIndex(s, c)
    case None => s
    case Some(k) => s[k := d]
  }

  /** Replacing the first `c` by `d`, when `c` occurs, removes exactly one `c`. */
  lemma {:induction false} ReplaceFirstRemovesOne(s: string, c: char, d: char)
    requires c in s && c != d
    ensures multiset(ReplaceFirst(s, c, d))[c] == multiset(s)[c] - 1
    ensures multiset(ReplaceFirst(s, c, d))[d] == multiset(s)[d] + 1
  {
    var k := FirstIndex(s, c).value;
    var r := ReplaceFirst(s, c, d);
    assert s == s[..k] + [c] + s[k + 1..];
    assert r == s[..k] + [d] + s[k + 1..];
  }

  /** The badge caption. */
  function StatusCaption(status: string): string {
    ReplaceFirst(status, '-', ' ')
  }

  /** The three statuses the lessons use read as words on the badge. */
  lemma StatusCaptions()
    ensures StatusCaption("in-progress") == "in progress"
    ensures StatusCaption("completed") == "completed"
    ensures StatusCaption("upcoming") == "upcoming"
  {
    InProgressCaption();
    NoHyphen("completed");
    NoHyphen("upcoming");
  }

  lemma NoHyphen(s: string)
    requires '-' !in s
    ensures StatusCaption(s) == s
  {
  }

  lemma InProgressCaption()
    ensures StatusCaption("in-progress") == "in progress"
  {
    ReplaceAt("in-progress", '-', ' ', 2);
  }

  /** Where the first `c` is known, the replacement is an update at that index. */
  lemma ReplaceAt(s: string, c: char, d: char, k: int)
    requires 0 <= k < |s| && s[k] == c
    requires forall i :: 0 <= i < k ==> s[i] != c
    ensures ReplaceFirst(s, c, d) == s[k := d]
  {
    var j := FirstIndex(s, c).value;
    assert !(j < k) && !(k < j);
  }

  /** The attendance line appears unless the attendance is the placeholder "-". */
  function ShowsAttendance(l: Lesson): (show: bool)
    ensures show <==> l.attendance != "-"
  {
    l.attendance != "-"
  }

  /** The quick-notes row belongs to the running lesson. */
  function ShowsNotes(l: Lesson): (show: bool)
    ensures show <==> StatusVariant(l.status) == Warning
  {
    l.status == "in-progress"
  }

  /** The completion banner belongs to finished lessons. */
  function ShowsBanner(l: Lesson): (show: bool)
    ensures show <==> StatusVariant(l.status) == Success
  {
    l.status == "completed"
  }

  /** No card shows both the notes row and the completion banner. */
  lemma NotesAndBannerExclusive(l: Lesson)
    ensures !(ShowsNotes(l) && ShowsBanner(l))
  {
  }

  /** The banner's fixed count "28 students marked present" matches the one finished
      lesson's attendance, and the upcoming lesson shows no attendance line. */
  lemma LessonCards()
    ensures forall i :: 0 <= i < |Lessons| ==> (ShowsBanner(Lessons[i]) <==> i == 0)
    ensures Lessons[0].attendance[..2] == "28"
    ensures forall i :: 0 <= i < |Lessons| ==> (ShowsAttendance(Lessons[i]) <==> i != 2)
    ensures forall i :: 0 <= i < |Lessons| ==> (ShowsNotes(Lessons[i]) <==> i == 1)
  {
    assert Lessons[0].attendance == "28/30";
  }
}
