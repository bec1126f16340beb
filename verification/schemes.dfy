/**
  The schemes and scholarships page: two fixed lists of offers, a status badge whose
  colour and icon depend on the status string, an action button for offers the student
  is eligible for, and the two count badges over the lists.
 */
module Schemes {

  /** The statuses the badge styles know. */
  predicate IsKnownStatus(s: string) {
    s == "eligible" || s == "applied" || s == "enrolled" || s == "pending"
  }

  datatype Tone = Blue | Yellow | Green | Orange | Gray

  /** The badge colour classes each tone stands for. */
  function ToneClasses(t: Tone): string {
    match t
    case Blue => "bg-blue-100 text-blue-800"
    case Yellow => "bg-yellow-100 text-yellow-800"
    case Green => "bg-green-100 text-green-800"
    case Orange => "bg-orange-100 text-orange-800"
    case Gray => "bg-gray-100 text-gray-800"
  }

  /** Badge colour by status; every status the styles do not know is grey. */
  function StatusTone(status: string): (t: Tone)
    ensures t == Gray <==> !IsKnownStatus(status)
    ensures t == Blue <==> status == "eligible"
    ensures t == Green <==> status == "enrolled"
  {
    match status
    case "eligible" => Blue
    case "applied" => Yellow
    case "enrolled" => Green
    case "pending" => Orange
    case _ => Gray
  }

  /** Different known statuses get different colours. */
  lemma StatusToneInjective(a: string, b: string)
    requires IsKnownStatus(a) && IsKnownStatus(b)
    ensures StatusTone(a) == StatusTone(b) <==> a == b
  {
  }

  datatype Icon = AlertCircle | Clock | CheckCircle | FileText

  /** Badge icon by status; an unknown status shows the document icon. */
  function StatusIcon(status: string): (i: Icon)
    ensures i == FileText <==> !IsKnownStatus(status)
    ensures i == Clock <==> status == "applied" || status == "pending"
    ensures i == AlertCircle <==> status == "eligible"
    ensures i == CheckCircle <==> status == "enrolled"
  {
    match status
    case "eligible" => AlertCircle
    case "applied" => Clock
    case "enrolled" => CheckCircle
    case "pending" => Clock
    case _ => FileText
  }

  /** Icons tell statuses apart except that an application sent and one awaiting a
      decision look the same; the colour still separates them. */
  lemma IconSharedOnlyByAppliedAndPending(a: string, b: string)
    requires IsKnownStatus(a) && IsKnownStatus(b) && a != b
    ensures StatusIcon(a) == StatusIcon(b) <==> {a, b} == {"applied", "pending"}
    ensures StatusTone(a) != StatusTone(b)
  {
    StatusToneInjective(a, b);
  }

  datatype Scholarship = Scholarship(
    title: string, provider: string, amount: string, deadline: string,
    status: string, requirements: seq<string>, description: string)

  datatype Scheme = Scheme(
    title: string, provider: string, kind: string, status: string, description: string)

  const Scholarships: seq<Scholarship> := [
    Scholarship("Merit-Based Scholarship 2024", "Ministry of Education", "\U{20B9}50,000",
      "2024-12-15", "eligible", ["GPA > 3.5", "Attendance > 85%"],
      "For academically excellent students"),
    Scholarship("Digital India Scholarship", "Government of India", "\U{20B9}25,000",
      "2024-11-30", "applied", ["STEM Field", "Family Income < 5L"],
      "Promoting digital literacy and innovation"),
    Scholarship("Sports Excellence Award", "State Sports Council", "\U{20B9}30,000",
      "2024-12-20", "pending", ["State Level Participation", "Academic Performance"],
      "Supporting sports talent development")
  ]

  const Schemes: seq<Scheme> := [
    Scheme("Mid-Day Meal Scheme", "Department of Education", "Nutritional Support",
      "enrolled", "Free nutritious meals for students"),
    Scheme("Free Textbook Scheme", "State Government", "Educational Material",
      "eligible", "Free textbooks for all subjects"),
    Scheme("Uniform Assistance", "Education Department", "Material Support",
      "enrolled", "Free school uniforms and shoes")
  ]

  /** A card offers its action button, "Apply Now" on a scholarship and "Enroll Now" on a
      scheme, exactly when its status is eligible. */
  function OffersAction(status: string): (show: bool)
    ensures show <==> StatusTone(status) == Blue
    ensures show ==> StatusIcon(status) == AlertCircle
  {
    status == "eligible"
  }

  /** How many of `statuses` equal `s`. */
  function CountStatus(statuses: seq<string>, s: string): (n: nat)
    ensures n <= |statuses|
    ensures n == 0 <==> s !in statuses
  {
    if statuses == [] then 0
    else
      var last := |statuses| - 1;
      CountStatus(statuses[..last], s) + (if statuses[last] == s then 1 else 0)
  }

  /** The positions holding `s`. */
  function Positions(statuses: seq<string>, s: string): set<int> {
    set i | 0 <= i < |statuses| && statuses[i] == s
  }

  /** The count is the number of positions holding the status. */
  lemma {:induction false} CountIsPositions(statuses: seq<string>, s: string)
    ensures CountStatus(statuses, s) == |Positions(statuses, s)|
  {
    if statuses != [] {
      var last := |statuses| - 1;
      var init := statuses[..last];
      CountIsPositions(init, s);
      assert last !in Positions(init, s);
      if statuses[last] == s {
        assert Positions(statuses, s) == Positions(init, s) + {last};
      } else {
        assert Positions(statuses, s) == Positions(init, s);
      }
    }
  }

  function SchemeStatuses(list: seq<Scheme>): (r: seq<string>)
    ensures |r| == |list|
    ensures forall i :: 0 <= i < |list| ==> r[i] == list[i].status
  {
    seq(|list|, i requires 0 <= i < |list| => list[i].status)
  }

  /** The badges "3 Active" and "2 Enrolled" agree with the lists: three scholarships
      are listed and two schemes are enrolled. Exactly one offer of each kind shows its
      action button. */
  lemma BadgesMatchLists()
    ensures |Scholarships| == 3
    ensures CountStatus(SchemeStatuses(Schemes), "enrolled") == 2
    ensures forall i :: 0 <= i < |Scholarships| ==> (OffersAction(Scholarships[i].status) <==> i == 0)
    ensures forall i :: 0 <= i < |Schemes| ==> (OffersAction(Schemes[i].status) <==> i == 1)
  {
    var st := SchemeStatuses(Schemes);
    assert st == ["enrolled", "eligible", "enrolled"];
    assert st[..2] == ["enrolled", "eligible"];
    assert st[..2][..1] == ["enrolled"];
    assert st[..2][..1][..0] == [];
  }

  /** Every listed offer has a status the badge styles know. */
  lemma ListedStatusesKnown()
    ensures forall i :: 0 <= i < |Scholarships| ==> StatusTone(Scholarships[i].status) != Gray
    ensures forall i :: 0 <= i < |Schemes| ==> StatusIcon(Schemes[i].status) != FileText
  {
  }
}
