/**
 * The knowledge-base responder of the backend (`get_detailed_response`): a
 * dispatch on the intent name and on keywords of the lower-cased query that
 * answers with a bulleted or numbered list from the knowledge base, a
 * generic prompt for the intent, or nothing for any other intent.
 */
module ChatbotKnowledge {
  import opened Wrappers
  import opened Text

  // ---------------------------------------------------------------------
  // The lists of the knowledge base that the responder reads

  const JammuColleges: seq<string> := [
    "University of Jammu - Offers various undergraduate and postgraduate programs",
    "Government Medical College Jammu - Premier medical institution",
    "Jammu College of Engineering and Technology - Engineering programs",
    "Jammu Institute of Management - Business and management courses"]

  const SrinagarColleges: seq<string> := [
    "University of Kashmir - Leading university with diverse programs",
    "Government Medical College Srinagar - Medical education hub",
    "National Institute of Technology Srinagar - Premier engineering institute",
    "Islamic University of Science and Technology - Technology and science programs"]

  const AdmissionProcess: seq<string> := [
    "Check eligibility criteria for desired course",
    "Fill out application forms before deadline",
    "Submit required documents and certificates",
    "Appear for entrance exams if applicable",
    "Wait for merit list and counseling"]

  const GovernmentScholarships: seq<string> := [
    "Post Matric Scholarship for J&K Students",
    "Merit Scholarship for Higher Education",
    "National Scholarship Portal schemes",
    "Chief Minister's Scholarship Program"]

  const PrivateScholarships: seq<string> := [
    "Corporate scholarships from major companies",
    "Foundation and NGO scholarships",
    "Merit-based institutional scholarships",
    "Need-based financial aid programs"]

  const ApplicationTips: seq<string> := [
    "Keep all academic documents ready",
    "Apply before deadlines",
    "Write compelling personal statements",
    "Get recommendation letters from teachers"]

  const PopularCareers: seq<string> := [
    "Engineering - Software, Civil, Mechanical, Electrical",
    "Medicine - MBBS, Dentistry, Pharmacy, Nursing",
    "Management - MBA, Business Administration",
    "Education - Teaching, Research, Administration",
    "Government Services - Civil Services, Banking, Defense"]

  const AptitudeAreas: seq<string> := [
    "Logical Reasoning and Problem Solving",
    "Verbal and Communication Skills",
    "Mathematical and Analytical Ability",
    "Creative and Artistic Skills",
    "Leadership and Team Management"]

  const CareerPlanningSteps: seq<string> := [
    "Self-assessment and interest identification",
    "Research career options and requirements",
    "Set educational and career goals",
    "Develop necessary skills and qualifications",
    "Create action plan with timelines"]

  // ---------------------------------------------------------------------
  // Headers and prompts

  const JammuHeader: string := "Here are some top colleges in Jammu:"
  const SrinagarHeader: string := "Here are some top colleges in Srinagar:"
  const AdmissionHeader: string := "Here's the general admission process:"
  const CollegesPrompt: string := "I can provide detailed information about colleges in Jammu, Srinagar, and other districts. What specific information are you looking for?"
  const GovernmentHeader: string := "Government scholarships available:"
  const PrivateHeader: string := "Private scholarships available:"
  const TipsHeader: string := "Scholarship application tips:"
  const ScholarshipsPrompt: string := "I can help you with government scholarships, private funding, and application guidance. What type of scholarship information do you need?"
  const CareersHeader: string := "Popular career options for J&K students:"
  const AptitudeHeader: string := "Key aptitude areas assessed:"
  const PlanningHeader: string := "Career planning steps:"
  const CareerPrompt: string := "I can help with career options, aptitude assessment, and planning guidance. What aspect of career guidance interests you?"

  // ---------------------------------------------------------------------
  // Formatting

  /** Each item as a bullet line `• item`, in order. */
  function Bullets(items: seq<string>): (lines: seq<string>)
  {
    seq(|items|, i requires 0 <= i < |items| => "• " + items[i])
  }

  /** Each step as a line `n. step`, numbered from 1. */
  function Numbered(steps: seq<string>): (lines: seq<string>)
  {
    seq(|steps|, i requires 0 <= i < |steps| => NatToString(i + 1) + ". " + steps[i])
  }

  /** `"\n".join(lines)`, which is empty for no lines. */
  function JoinLines(lines: seq<string>): string
  {
    if lines == [] then "" else Join(lines, '\n')
  }

  /** What the responder answers: a headed list, or a plain prompt. */
  datatype Answer = Listing(header: string, lines: seq<string>) | Prompt(text: string)

  /** The text of an answer: the header, a blank line, then the list lines. */
  function Render(a: Answer): string
  {
    match a
    case Listing(header, lines) => header + "\n\n" + JoinLines(lines)
    case Prompt(text) => text
  }


  // ---------------------------------------------------------------------
  // Dispatch

  /** The knowledge-base entry an answer is drawn from. */
  datatype Topic =
    | JammuList | SrinagarList | AdmissionSteps | CollegesHelp
    | GovernmentList | PrivateList | ApplicationTipsList | ScholarshipsHelp
    | CareersList | AptitudeList | PlanningSteps | CareerHelp

  /** The topic chosen for an intent name and a query, by keywords of the lower-cased query. */
  function Select(intent: string, query: string): Option<Topic>
  {
    SelectLowered(intent, Lower(query))
  }

  /** The keyword dispatch on an already lower-cased query `q`. */
  function SelectLowered(intent: string, q: string): Option<Topic>
  {
    if intent == "colleges" then
      if Contains(q, "jammu") then Some(JammuList)
      else if Contains(q, "srinagar") then Some(SrinagarList)
      else if Contains(q, "admission") then Some(AdmissionSteps)
      else Some(CollegesHelp)
    else if intent == "scholarships" then
      if Contains(q, "government") then Some(GovernmentList)
      else if Contains(q, "private") then Some(PrivateList)
      else if Contains(q, "apply") || Contains(q, "application") then Some(ApplicationTipsList)
      else Some(ScholarshipsHelp)
    else if intent == "career_guidance" then
      if Contains(q, "career") && (Contains(q, "popular") || Contains(q, "options")) then Some(CareersList)
      else if Contains(q, "aptitude") then Some(AptitudeList)
      else if Contains(q, "plan") then Some(PlanningSteps)
      else Some(CareerHelp)
    else None
  }

  /** What each topic answers: colleges and funding offers as bullets, procedures numbered. */
  function AnswerOf(t: Topic): Answer
  {
    match t
    case JammuList => Listing(JammuHeader, Bullets(JammuColleges))
    case SrinagarList => Listing(SrinagarHeader, Bullets(SrinagarColleges))
    case AdmissionSteps => Listing(AdmissionHeader, Numbered(AdmissionProcess))
    case CollegesHelp => Prompt(CollegesPrompt)
    case GovernmentList => Listing(GovernmentHeader, Bullets(GovernmentScholarships))
    case PrivateList => Listing(PrivateHeader, Bullets(PrivateScholarships))
    case ApplicationTipsList => Listing(TipsHeader, Bullets(ApplicationTips))
    case ScholarshipsHelp => Prompt(ScholarshipsPrompt)
    case CareersList => Listing(CareersHeader, Bullets(PopularCareers))
    case AptitudeList => Listing(AptitudeHeader, Bullets(AptitudeAreas))
    case PlanningSteps => Listing(PlanningHeader, Numbered(CareerPlanningSteps))
    case CareerHelp => Prompt(CareerPrompt)
  }

  /** `get_detailed_response`: the rendered answer, or nothing for an intent it does not cover. */
  function GetDetailedResponse(intent: string, query: string): (r: Option<string>)
    ensures r.None? <==> intent != "colleges" && intent != "scholarships" && intent != "career_guidance"
  {
    match Select(intent, query)
    case Some(t) => Some(Render(AnswerOf(t)))
    case None => None
  }

  // ---------------------------------------------------------------------
  // Properties

  /** Keyword matching is on the lower-cased query, so the query's case never matters. */
  lemma CaseInsensitive(intent: string, query: string)
    ensures Select(intent, query) == Select(intent, Lower(query))
    ensures GetDetailedResponse(intent, query) == GetDetailedResponse(intent, Lower(query))
  {
    LowerIdempotent(query);
  }

  /**
   * Only the three knowledge intents get an answer, and each draws only on
   * its own topics.
   */
  lemma TopicsOfIntent(intent: string, query: string)
    ensures Select(intent, query).None? <==>
      intent != "colleges" && intent != "scholarships" && intent != "career_guidance"
    ensures intent == "colleges" ==>
      Select(intent, query).value in {JammuList, SrinagarList, AdmissionSteps, CollegesHelp}
    ensures intent == "scholarships" ==>
      Select(intent, query).value in {GovernmentList, PrivateList, ApplicationTipsList, ScholarshipsHelp}
    ensures intent == "career_guidance" ==>
      Select(intent, query).value in {CareersList, AptitudeList, PlanningSteps, CareerHelp}
  {
  }

  /**
   * For colleges, Jammu wins over Srinagar, which wins over admission; only
   * a query naming none of them gets the generic prompt.
   */
  lemma CollegesPriority(query: string)
    ensures Select("colleges", query) == Some(JammuList) <==> Contains(Lower(query), "jammu")
    ensures Select("colleges", query) == Some(SrinagarList) <==>
      !Contains(Lower(query), "jammu") && Contains(Lower(query), "srinagar")
    ensures Select("colleges", query) == Some(AdmissionSteps) <==>
      !Contains(Lower(query), "jammu") && !Contains(Lower(query), "srinagar") && Contains(Lower(query), "admission")
    ensures Select("colleges", query) == Some(CollegesHelp) <==>
      !Contains(Lower(query), "jammu") && !Contains(Lower(query), "srinagar") && !Contains(Lower(query), "admission")
  {
  }

  /** For scholarships, the application tips are chosen only when neither "government" nor "private" occurs. */
  lemma ScholarshipsPriority(query: string)
    ensures Select("scholarships", query) == Some(GovernmentList) <==> Contains(Lower(query), "government")
    ensures Select("scholarships", query) == Some(PrivateList) <==>
      !Contains(Lower(query), "government") && Contains(Lower(query), "private")
    ensures Select("scholarships", query) == Some(ApplicationTipsList) <==>
      !Contains(Lower(query), "government") && !Contains(Lower(query), "private") &&
      (Contains(Lower(query), "apply") || Contains(Lower(query), "application"))
  {
  }

  /**
   * For career guidance, the popular careers need "career" together with
   * "popular" or "options"; otherwise "aptitude" wins over "plan".
   */
  lemma CareerPriority(query: string)
    ensures Select("career_guidance", query) == Some(CareersList) <==>
      Contains(Lower(query), "career") && (Contains(Lower(query), "popular") || Contains(Lower(query), "options"))
    ensures Select("career_guidance", query) == Some(AptitudeList) <==>
      !(Contains(Lower(query), "career") && (Contains(Lower(query), "popular") || Contains(Lower(query), "options"))) &&
      Contains(Lower(query), "aptitude")
    ensures Select("career_guidance", query) == Some(PlanningSteps) <==>
      !(Contains(Lower(query), "career") && (Contains(Lower(query), "popular") || Contains(Lower(query), "options"))) &&
      !Contains(Lower(query), "aptitude") && Contains(Lower(query), "plan")
  {
  }

  predicate NoNewline(s: string)
  {
    '\n' !in s
  }

  /** Joining a head line onto the rest puts one separator between them. */
  lemma JoinCons(head: string, rest: seq<string>)
    requires |rest| >= 1
    ensures Join([head] + rest, '\n') == head + "\n" + Join(rest, '\n')
  {
    assert ([head] + rest)[1..] == rest;
  }

  /**
   * A rendered list reads back line by line as its header, one blank line,
   * and exactly its lines in order, when none of them holds a line break.
   */
  lemma ListingLines(header: string, lines: seq<string>)
    requires NoNewline(header) && |lines| >= 1
    requires forall i :: 0 <= i < |lines| ==> NoNewline(lines[i])
    ensures Split(Render(Listing(header, lines)), '\n') == [header, ""] + lines
  {
    JoinCons("", lines);
    JoinCons(header, [""] + lines);
    assert [header] + ([""] + lines) == [header, ""] + lines;
    var parts := [header, ""] + lines;
    var j := Join(lines, '\n');
    assert Render(Listing(header, lines)) == header + "\n\n" + j;
    assert header + "\n\n" + j == header + "\n" + ("" + "\n" + j);
    assert forall k :: 0 <= k < |parts| ==> '\n' !in parts[k];
    SplitJoin(parts, '\n');
  }

  /**
   * A bulleted answer reads back line by line as its header, a blank line
   * and one `• item` line per item, in order.
   */
  lemma BulletedLines(header: string, items: seq<string>)
    requires NoNewline(header) && |items| >= 1
    requires forall i :: 0 <= i < |items| ==> NoNewline(items[i])
    ensures var parts := Split(Render(Listing(header, Bullets(items))), '\n');
      |parts| == |items| + 2 && parts[0] == header && parts[1] == "" &&
      forall i :: 0 <= i < |items| ==> parts[i + 2] == "• " + items[i]
  {
    var lines := Bullets(items);
    forall i | 0 <= i < |lines|
      ensures NoNewline(lines[i])
    {
      assert lines[i] == "• " + items[i];
    }
    ListingLines(header, lines);
  }

  /**
   * A numbered answer reads back line by line as its header, a blank line
   * and one line per step, the n-th led by the decimal digits of n + 1 and
   * a dot.
   */
  lemma NumberedLines(header: string, steps: seq<string>)
    requires NoNewline(header) && |steps| >= 1
    requires forall i :: 0 <= i < |steps| ==> NoNewline(steps[i])
    ensures var parts := Split(Render(Listing(header, Numbered(steps))), '\n');
      |parts| == |steps| + 2 && parts[0] == header && parts[1] == "" &&
      forall i :: 0 <= i < |steps| ==> parts[i + 2] == NatToString(i + 1) + ". " + steps[i]
  {
    var lines := Numbered(steps);
    forall i | 0 <= i < |lines|
      ensures NoNewline(lines[i])
    {
      var d := NatToString(i + 1);
      assert lines[i] == d + ". " + steps[i];
      assert forall k :: 0 <= k < |d| ==> IsDigit(d[k]);
      assert '\n' !in d;
    }
    ListingLines(header, lines);
  }

  /** The n-th numbered line starts with the decimal digits of n + 1, which read back as n + 1. */
  lemma NumberedFromOne(steps: seq<string>, i: nat)
    requires i < |steps|
    ensures StartsWith(Numbered(steps)[i], NatToString(i + 1) + ". ")
    ensures ParseNat(NatToString(i + 1)) == i + 1
  {
    var d := NatToString(i + 1) + ". ";
    assert Numbered(steps)[i] == d + steps[i];
    assert (d + steps[i])[..|d|] == d;
    ParseNatToString(i + 1);
  }
}
