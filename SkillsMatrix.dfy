/**
  The skills matrix: four tabbed categories of skills, each skill shown with
  a proficiency bar, a level badge and a colour band derived from its score.
  Levels and colours are two chains of threshold tests on the same cut-off
  points (90, 80, 70, 50); this module states what each chain means and
  proves that they always pick the same band.
 */
module SkillsMatrix {

  datatype Skill = Skill(name: string, proficiency: int, description: string)

  datatype SkillCategory = SkillCategory(id: string, name: string, skills: seq<Skill>)

  /** The tab selected when the matrix is first shown. */
  const DefaultTab: string := "marketing"

  const Categories: seq<SkillCategory> := [
    SkillCategory("marketing", "Digital Marketing", [
      Skill("Conversion Rate Optimization", 95, "Expert in improving conversion rates through data-driven testing and optimization"),
      Skill("Performance Marketing", 90, "Highly skilled in managing paid campaigns across search, social, and display channels"),
      Skill("Content Marketing", 85, "Experienced in creating strategic content that drives engagement and conversions"),
      Skill("SEO Strategy", 80, "Strong knowledge of technical SEO, keyword research, and content optimization"),
      Skill("Email Marketing", 85, "Proficient in email campaign strategy, segmentation, and automation")
    ]),
    SkillCategory("analytics", "Analytics & Data", [
      Skill("Google Analytics", 95, "Expert in implementation, analysis, and extracting actionable insights"),
      Skill("A/B Testing", 90, "Experienced in designing and analyzing statistically significant tests"),
      Skill("Data Visualization", 85, "Skilled in creating clear, actionable dashboards and reports"),
      Skill("Attribution Modeling", 80, "Knowledge of multi-touch attribution and customer journey analysis"),
      Skill("SQL & Data Analysis", 75, "Capable of querying and analyzing marketing data directly")
    ]),
    SkillCategory("tools", "Marketing Tools", [
      Skill("Google Ads", 90, "Expert in campaign structure, optimization, and advanced targeting"),
      Skill("Facebook Ads Manager", 85, "Skilled in audience targeting, creative testing, and campaign optimization"),
      Skill("HubSpot", 80, "Experienced with marketing automation, CRM, and lead nurturing"),
      Skill("SEMrush / Ahrefs", 85, "Proficient in competitive analysis and SEO research tools"),
      Skill("Hotjar / Fullstory", 90, "Expert in user behavior analysis and qualitative research")
    ]),
    SkillCategory("strategy", "Strategy & Leadership", [
      Skill("Marketing Strategy", 90, "Skilled in developing comprehensive, data-driven marketing strategies"),
      Skill("Team Leadership", 85, "Experience managing and developing high-performing marketing teams"),
      Skill("Project Management", 80, "Proficient in managing complex marketing projects and campaigns"),
      Skill("Stakeholder Communication", 90, "Strong ability to communicate results and strategy to executives"),
      Skill("Budget Management", 85, "Experienced in optimizing marketing spend for maximum ROI")
    ])
  ]

  /** The level badge for a proficiency score: each level holds on exactly one interval. */
  function SkillLevel(proficiency: int): (level: string)
    ensures level == "Expert" <==> 90 <= proficiency
    ensures level == "Advanced" <==> 80 <= proficiency < 90
    ensures level == "Proficient" <==> 70 <= proficiency < 80
    ensures level == "Intermediate" <==> 50 <= proficiency < 70
    ensures level == "Beginner" <==> proficiency < 50
  {
    if proficiency >= 90 then "Expert"
    else if proficiency >= 80 then "Advanced"
    else if proficiency >= 70 then "Proficient"
    else if proficiency >= 50 then "Intermediate"
    else "Beginner"
  }

  /** The colour of the proficiency bar: each colour holds on exactly one interval. */
  function SkillColor(proficiency: int): (color: string)
    ensures color == "bg-primary" <==> 90 <= proficiency
    ensures color == "bg-primary-600" <==> 80 <= proficiency < 90
    ensures color == "bg-primary-500" <==> 70 <= proficiency < 80
    ensures color == "bg-primary-400" <==> 50 <= proficiency < 70
    ensures color == "bg-primary-300" <==> proficiency < 50
  {
    if proficiency >= 90 then "bg-primary"
    else if proficiency >= 80 then "bg-primary-600"
    else if proficiency >= 70 then "bg-primary-500"
    else if proficiency >= 50 then "bg-primary-400"
    else "bg-primary-300"
  }

  predicate IsLevel(level: string) {
    level in {"Expert", "Advanced", "Proficient", "Intermediate", "Beginner"}
  }

  predicate IsColor(color: string) {
    color in {"bg-primary", "bg-primary-600", "bg-primary-500", "bg-primary-400", "bg-primary-300"}
  }

  /** The fixed pairing of level labels with bar colours. */
  function ColorOfLevel(level: string): (color: string)
    requires IsLevel(level)
    ensures IsColor(color)
  {
    match level
    case "Expert" => "bg-primary"
    case "Advanced" => "bg-primary-600"
    case "Proficient" => "bg-primary-500"
    case "Intermediate" => "bg-primary-400"
    case _ => "bg-primary-300"
  }

  /** The inverse pairing, from bar colours back to level labels. */
  function LevelOfColor(color: string): (level: string)
    requires IsColor(color)
    ensures IsLevel(level)
  {
    match color
    case "bg-primary" => "Expert"
    case "bg-primary-600" => "Advanced"
    case "bg-primary-500" => "Proficient"
    case "bg-primary-400" => "Intermediate"
    case _ => "Beginner"
  }

  /** The pairing is a bijection between the five labels and the five colours. */
  lemma PairingIsBijection(level: string, color: string)
    ensures IsLevel(level) ==> LevelOfColor(ColorOfLevel(level)) == level
    ensures IsColor(color) ==> ColorOfLevel(LevelOfColor(color)) == color
  {
  }

  /** Badge and bar always show the same band, for every score. */
  lemma LevelAndColorAgree(proficiency: int)
    ensures IsLevel(SkillLevel(proficiency)) && IsColor(SkillColor(proficiency))
    ensures SkillColor(proficiency) == ColorOfLevel(SkillLevel(proficiency))
    ensures SkillLevel(proficiency) == LevelOfColor(SkillColor(proficiency))
  {
  }

  /** The position of a level in the order Beginner < Intermediate < Proficient < Advanced < Expert. */
  function LevelRank(level: string): (rank: nat)
    requires IsLevel(level)
    ensures rank < 5
    ensures rank == 4 <==> level == "Expert"
    ensures rank == 0 <==> level == "Beginner"
  {
    match level
    case "Beginner" => 0
    case "Intermediate" => 1
    case "Proficient" => 2
    case "Advanced" => 3
    case _ => 4
  }

  /** A higher score never earns a lower level. */
  lemma LevelMonotone(p: int, q: int)
    requires p <= q
    ensures LevelRank(SkillLevel(p)) <= LevelRank(SkillLevel(q))
  {
  }

  /** One row of a category's tab: the badge, the bar's value and the bar's colour. */
  datatype SkillRow = SkillRow(name: string, description: string, badge: string, progress: int, indicator: string)

  /** The rows shown for one category, in the order its skills are listed. */
  function SkillRows(category: SkillCategory): (rows: seq<SkillRow>)
    ensures |rows| == |category.skills|
    ensures forall i :: 0 <= i < |rows| ==>
      && rows[i].name == category.skills[i].name
      && rows[i].progress == category.skills[i].proficiency
      && rows[i].badge == SkillLevel(category.skills[i].proficiency)
      && IsColor(rows[i].indicator)
      && rows[i].indicator == ColorOfLevel(rows[i].badge)
  {
    seq(|category.skills|, i requires 0 <= i < |category.skills| =>
      var skill := category.skills[i];
      SkillRow(skill.name, skill.description, SkillLevel(skill.proficiency),
               skill.proficiency, SkillColor(skill.proficiency)))
  }

  /** The default tab names exactly one category, the first. */
  lemma DefaultTabIsACategory()
    ensures |Categories| == 4 && Categories[0].id == DefaultTab
    ensures forall i :: 0 < i < |Categories| ==> Categories[i].id != DefaultTab
  {
  }

  /** Tab values are distinct, so each tab shows one category. */
  lemma CategoryIdsDistinct()
    ensures forall i, j :: 0 <= i < j < |Categories| ==> Categories[i].id != Categories[j].id
  {
  }

  /** Every listed skill scores between 75 and 95, so its badge is Expert, Advanced or Proficient. */
  lemma ListedSkillsAreStrong()
    ensures forall i, k :: 0 <= i < |Categories| && 0 <= k < |Categories[i].skills| ==>
      var p := Categories[i].skills[k].proficiency;
      && 75 <= p <= 95
      && SkillLevel(p) in {"Expert", "Advanced", "Proficient"}
  {
  }
}
