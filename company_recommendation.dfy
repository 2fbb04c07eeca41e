/** The company-fit scoring engine and the recommendation ranking of
    Backend/services/companyRecommendation.service.js. The database reads (the user, the last 50
    interviews, the company collection) are parameters; `Company.findOne({ name })` is `Lookup`
    over the company collection. */
module CompanyRecommendation {
  import opened Wrappers
  import opened Numeric
  import opened Collections
  import opened Sorting
  import opened Interviews

  /** Per-category minimum scores of a company (Company.model.js). */
  datatype HiringBar = HiringBar(technical: real, behavioral: real, systemDesign: real, overall: real)

  /** What a company's interviews are like (Company.model.js); `interviewStyle` has no default. */
  datatype Characteristics = Characteristics(
    focusAreas: seq<string>,
    interviewStyle: Option<string>,
    commonTopics: seq<string>)

  /** The characteristics of a company stored with none given: empty lists, no style. */
  const NoCharacteristics := Characteristics([], None, [])

  datatype Company = Company(
    name: string,
    logo: Option<string>,
    hiringBar: HiringBar,
    acceptanceRate: real,
    difficultyRating: real,
    characteristics: Characteristics)

  /** Schema defaults of a company's hiring bar and acceptance rate. */
  const DefaultHiringBar := HiringBar(70.0, 65.0, 75.0, 70.0)
  const DefaultAcceptanceRate := 50.0

  datatype Readiness = NotReady | NeedsWork | Moderate | Good | Excellent
  {
    /** The label the service returns. */
    function Label(): string
    {
      match this
      case NotReady => "Not Ready"
      case NeedsWork => "Needs Work"
      case Moderate => "Moderate"
      case Good => "Good"
      case Excellent => "Excellent"
    }

    /** Position on the scale from Not Ready (0) to Excellent (4). */
    function Rank(): nat
    {
      match this
      case NotReady => 0
      case NeedsWork => 1
      case Moderate => 2
      case Good => 3
      case Excellent => 4
    }
  }

  /** A rounded value per interview category. */
  datatype Categories = Categories(technical: int, behavioral: int, systemDesign: int)

  /** The value `calculateCompanyFit` returns: a degenerate record when the company is unknown,
      else the full analysis (with empty strengths, weaknesses and recommendations, which
      `getCompanyRecommendations` fills in). */
  datatype CompanyFit =
    | Unavailable(company: string, fitScore: int, analysis: string)
    | Fit(
        company: string,
        fitScore: int,
        readinessLevel: Readiness,
        successProbability: int,
        scores: Categories,
        gaps: Categories,
        hiringBar: HiringBar,
        strengths: seq<string>,
        weaknesses: seq<string>,
        recommendations: seq<string>)

  const TechnicalType := "technical"
  const BehavioralType := "behavioral"
  const SystemDesignType := "system-design"

  /** `Company.findOne({ name })`: the first company of the collection with that name. */
  function Lookup(companies: seq<Company>, name: string): (r: Option<Company>)
    ensures r.Some? ==> r.value in companies && r.value.name == name
    ensures r.None? <==> forall i :: 0 <= i < |companies| ==> companies[i].name != name
  {
    if |companies| == 0 then None
    else if companies[0].name == name then Some(companies[0])
    else Lookup(companies[1..], name)
  }

  /** Whether an interview is one of `companyName`'s interviews of the given type. */
  predicate Counts(i: Interview, companyName: string, interviewType: string)
  {
    i.targetCompany == Some(companyName) && i.interviewType == Some(interviewType)
  }

  /** The scores (absent ones as 0) of the company's interviews of one type, in order. */
  function CategoryScores(interviews: seq<Interview>, companyName: string, interviewType: string): (r: seq<real>)
    ensures |r| <= |interviews|
    ensures r == [] <==> forall i :: 0 <= i < |interviews| ==> !Counts(interviews[i], companyName, interviewType)
  {
    if |interviews| == 0 then []
    else
      (if Counts(interviews[0], companyName, interviewType) then [ScoreOrZero(interviews[0])] else [])
      + CategoryScores(interviews[1..], companyName, interviewType)
  }

  /** The average score of one category; 0 when the user has no such interview. */
  function CategoryAverage(interviews: seq<Interview>, companyName: string, interviewType: string): (r: real)
    ensures (forall i :: 0 <= i < |interviews| ==> !Counts(interviews[i], companyName, interviewType)) ==> r == 0.0
  {
    NoneCount(interviews, companyName, interviewType);
    Mean(CategoryScores(interviews, companyName, interviewType))
  }

  lemma {:induction false} NoneCount(interviews: seq<Interview>, companyName: string, interviewType: string)
    ensures (forall i :: 0 <= i < |interviews| ==> !Counts(interviews[i], companyName, interviewType))
            ==> CategoryScores(interviews, companyName, interviewType) == []
  {
    if |interviews| > 0 {
      NoneCount(interviews[1..], companyName, interviewType);
    }
  }

  /** Every score collected for the category is the score of a counted interview, so bounds on
      those carry over. */
  lemma {:induction false} CategoryScoresWithin(interviews: seq<Interview>, companyName: string, interviewType: string, lo: real, hi: real)
    requires forall i :: 0 <= i < |interviews| && Counts(interviews[i], companyName, interviewType)
                         ==> lo <= ScoreOrZero(interviews[i]) <= hi
    ensures forall k :: 0 <= k < |CategoryScores(interviews, companyName, interviewType)|
                        ==> lo <= CategoryScores(interviews, companyName, interviewType)[k] <= hi
  {
    if |interviews| > 0 {
      var rest := CategoryScores(interviews[1..], companyName, interviewType);
      CategoryScoresWithin(interviews[1..], companyName, interviewType, lo, hi);
      var head: seq<real> := if Counts(interviews[0], companyName, interviewType) then [ScoreOrZero(interviews[0])] else [];
      forall k | 0 <= k < |head + rest| ensures lo <= (head + rest)[k] <= hi {
        if k >= |head| {
          assert (head + rest)[k] == rest[k - |head|];
        }
      }
    }
  }

  /** The category average is the mean of the counted interviews' scores: when at least one
      interview counts and all counted scores lie in [lo, hi], so does the average. With lo == hi
      this pins the average to the common score. */
  lemma CategoryAverageWithin(interviews: seq<Interview>, companyName: string, interviewType: string, lo: real, hi: real)
    requires exists i :: 0 <= i < |interviews| && Counts(interviews[i], companyName, interviewType)
    requires forall i :: 0 <= i < |interviews| && Counts(interviews[i], companyName, interviewType)
                         ==> lo <= ScoreOrZero(interviews[i]) <= hi
    ensures lo <= CategoryAverage(interviews, companyName, interviewType) <= hi
  {
    var xs := CategoryScores(interviews, companyName, interviewType);
    CategoryScoresWithin(interviews, companyName, interviewType, lo, hi);
    MeanBounds(xs, lo, hi);
  }

  /** `Math.max(0, 100 - Math.abs(gap))`: 100 when the average is exactly on the bar, less the
      further it is from the bar on either side, never below 0. */
  function CategoryFit(bar: real, average: real): (r: real)
    ensures 0.0 <= r <= 100.0
    ensures r == 100.0 <==> average == bar
    ensures average <= bar <= average + 100.0 ==> r == 100.0 - (bar - average)
    ensures bar <= average <= bar + 100.0 ==> r == 100.0 - (average - bar)
    ensures Abs(bar - average) >= 100.0 ==> r == 0.0
  {
    Max(0.0, 100.0 - Abs(bar - average))
  }

  /** The rounded mean of the three category fits. */
  function OverallFit(technical: real, behavioral: real, systemDesign: real): (r: int)
    requires 0.0 <= technical <= 100.0 && 0.0 <= behavioral <= 100.0 && 0.0 <= systemDesign <= 100.0
    ensures 0 <= r <= 100
    ensures technical == behavioral == systemDesign == 100.0 ==> r == 100
    ensures var mean := (technical + behavioral + systemDesign) / 3.0;
            mean - 0.5 < r as real <= mean + 0.5
  {
    var mean := (technical + behavioral + systemDesign) / 3.0;
    RoundWithin(mean, 0, 100);
    RoundOfInteger(100);
    Round(mean)
  }

  /** The readiness label as a step function of the fit score. */
  function ReadinessFor(fitScore: int): (r: Readiness)
    ensures r == Excellent <==> fitScore >= 85
    ensures r == Good <==> 70 <= fitScore < 85
    ensures r == Moderate <==> 55 <= fitScore < 70
    ensures r == NeedsWork <==> 40 <= fitScore < 55
    ensures r == NotReady <==> fitScore < 40
  {
    if fitScore >= 85 then Excellent
    else if fitScore >= 70 then Good
    else if fitScore >= 55 then Moderate
    else if fitScore >= 40 then NeedsWork
    else NotReady
  }

  /** A higher fit score never gives a lower readiness label. */
  lemma ReadinessMonotone(a: int, b: int)
    requires a <= b
    ensures ReadinessFor(a).Rank() <= ReadinessFor(b).Rank()
  {
  }

  /** `Math.round(Math.min(100, Math.max(0, fit * acceptanceRate / 100)))`. */
  function SuccessProbability(fitScore: int, acceptanceRate: real): (r: int)
    ensures 0 <= r <= 100
    ensures 0 <= fitScore && 0.0 <= acceptanceRate && fitScore as real * acceptanceRate <= 10000.0
            ==> r == Round(fitScore as real * (acceptanceRate / 100.0))
  {
    var p := Clamp(0.0, 100.0, fitScore as real * (acceptanceRate / 100.0));
    RoundWithin(p, 0, 100);
    Round(p)
  }

  /** calculateCompanyFit, with the company lookup's result as a parameter. */
  function CalculateCompanyFit(companyName: string, interviews: seq<Interview>, company: Option<Company>): (r: CompanyFit)
    ensures company.None? ==> r == Unavailable(companyName, 0, "Company data not available")
    ensures company.Some? ==>
      && r.Fit?
      && r.company == companyName
      && 0 <= r.fitScore <= 100
      && r.readinessLevel == ReadinessFor(r.fitScore)
      && r.successProbability == SuccessProbability(r.fitScore, company.value.acceptanceRate)
      && r.hiringBar == company.value.hiringBar
      && r.strengths == [] && r.weaknesses == [] && r.recommendations == []
    ensures company.Some? ==>
      var bar := company.value.hiringBar;
      var avgT := CategoryAverage(interviews, companyName, TechnicalType);
      var avgB := CategoryAverage(interviews, companyName, BehavioralType);
      var avgS := CategoryAverage(interviews, companyName, SystemDesignType);
      && r.scores == Categories(Round(avgT), Round(avgB), Round(avgS))
      && r.gaps == Categories(Round(bar.technical - avgT), Round(bar.behavioral - avgB), Round(bar.systemDesign - avgS))
      && r.fitScore == OverallFit(CategoryFit(bar.technical, avgT), CategoryFit(bar.behavioral, avgB),
                                  CategoryFit(bar.systemDesign, avgS))
  {
    match company
    case None => Unavailable(companyName, 0, "Company data not available")
    case Some(c) =>
      var avgTechnical := CategoryAverage(interviews, companyName, TechnicalType);
      var avgBehavioral := CategoryAverage(interviews, companyName, BehavioralType);
      var avgSystemDesign := CategoryAverage(interviews, companyName, SystemDesignType);
      var technicalGap := c.hiringBar.technical - avgTechnical;
      var behavioralGap := c.hiringBar.behavioral - avgBehavioral;
      var systemDesignGap := c.hiringBar.systemDesign - avgSystemDesign;
      var overallFit := OverallFit(
        CategoryFit(c.hiringBar.technical, avgTechnical),
        CategoryFit(c.hiringBar.behavioral, avgBehavioral),
        CategoryFit(c.hiringBar.systemDesign, avgSystemDesign));
      Fit(
        companyName,
        overallFit,
        ReadinessFor(overallFit),
        SuccessProbability(overallFit, c.acceptanceRate),
        Categories(Round(avgTechnical), Round(avgBehavioral), Round(avgSystemDesign)),
        Categories(Round(technicalGap), Round(behavioralGap), Round(systemDesignGap)),
        c.hiringBar,
        [], [], [])
  }

  /** When every category average is exactly on the company's bar, the fit is 100 (Excellent). */
  lemma FitOnTheBar(companyName: string, interviews: seq<Interview>, c: Company)
    requires CategoryAverage(interviews, companyName, TechnicalType) == c.hiringBar.technical
    requires CategoryAverage(interviews, companyName, BehavioralType) == c.hiringBar.behavioral
    requires CategoryAverage(interviews, companyName, SystemDesignType) == c.hiringBar.systemDesign
    ensures CalculateCompanyFit(companyName, interviews, Some(c)).fitScore == 100
    ensures CalculateCompanyFit(companyName, interviews, Some(c)).readinessLevel == Excellent
    ensures CalculateCompanyFit(companyName, interviews, Some(c)).gaps == Categories(0, 0, 0)
  {
    RoundOfInteger(0);
  }

  /** Technical scores that all stay at least 16 points below the company's technical bar make
      technical a weakness of the annotated fit. */
  lemma LowTechnicalIsWeakness(companyName: string, interviews: seq<Interview>, c: Company)
    requires exists i :: 0 <= i < |interviews| && Counts(interviews[i], companyName, TechnicalType)
    requires forall i :: 0 <= i < |interviews| && Counts(interviews[i], companyName, TechnicalType)
                         ==> 0.0 <= ScoreOrZero(interviews[i]) <= c.hiringBar.technical - 16.0
    ensures WeakTechnical in Weaknesses(CalculateCompanyFit(companyName, interviews, Some(c)).gaps)
  {
    CategoryAverageWithin(interviews, companyName, TechnicalType, 0.0, c.hiringBar.technical - 16.0);
    var avg := CategoryAverage(interviews, companyName, TechnicalType);
    RoundMonotone(16.0, c.hiringBar.technical - avg);
    RoundOfInteger(16);
  }

  lemma {:induction false} CategoryScoresAppend(xs: seq<Interview>, ys: seq<Interview>, companyName: string, interviewType: string)
    ensures CategoryScores(xs + ys, companyName, interviewType)
         == CategoryScores(xs, companyName, interviewType) + CategoryScores(ys, companyName, interviewType)
  {
    if |xs| > 0 {
      assert (xs + ys)[1..] == xs[1..] + ys;
      CategoryScoresAppend(xs[1..], ys, companyName, interviewType);
    } else {
      assert xs + ys == ys;
    }
  }

  /** Interviews aimed at another company do not change a company's fit, wherever they occur. */
  lemma OtherCompaniesIgnored(companyName: string, xs: seq<Interview>, ys: seq<Interview>, zs: seq<Interview>, company: Option<Company>)
    requires forall i :: 0 <= i < |ys| ==> ys[i].targetCompany != Some(companyName)
    ensures CalculateCompanyFit(companyName, xs + ys + zs, company) == CalculateCompanyFit(companyName, xs + zs, company)
  {
    forall t: string
      ensures CategoryScores(xs + ys + zs, companyName, t) == CategoryScores(xs + zs, companyName, t)
    {
      CategoryScoresAppend(xs + ys, zs, companyName, t);
      CategoryScoresAppend(xs, ys, companyName, t);
      CategoryScoresAppend(xs, zs, companyName, t);
      NoneCount(ys, companyName, t);
    }
    var all, kept := xs + ys + zs, xs + zs;
    assert CategoryAverage(all, companyName, TechnicalType) == CategoryAverage(kept, companyName, TechnicalType);
    assert CategoryAverage(all, companyName, BehavioralType) == CategoryAverage(kept, companyName, BehavioralType);
    assert CategoryAverage(all, companyName, SystemDesignType) == CategoryAverage(kept, companyName, SystemDesignType);
  }

  // ---- strengths, weaknesses and advice (getCompanyRecommendations) ----

  const StrongTechnical := "Strong technical skills"
  const StrongBehavioral := "Excellent communication"
  const StrongSystemDesign := "Great system design skills"
  const WeakTechnical := "Technical skills need improvement"
  const WeakBehavioral := "Behavioral skills need work"
  const WeakSystemDesign := "System design needs practice"
  const FocusTechnical := "Focus on technical interview preparation"
  const FocusBehavioral := "Practice behavioral questions using STAR method"
  const FocusSystemDesign := "Study system design patterns and architectures"

  function When(c: bool, s: string): seq<string>
  {
    if c then [s] else []
  }

  /** A category is a strength when its rounded gap is at most 0. */
  function Strengths(gaps: Categories): (r: seq<string>)
    ensures StrongTechnical in r <==> gaps.technical <= 0
    ensures StrongBehavioral in r <==> gaps.behavioral <= 0
    ensures StrongSystemDesign in r <==> gaps.systemDesign <= 0
    ensures |r| == (if gaps.technical <= 0 then 1 else 0) + (if gaps.behavioral <= 0 then 1 else 0)
                   + (if gaps.systemDesign <= 0 then 1 else 0)
    ensures |r| <= 3
  {
    When(gaps.technical <= 0, StrongTechnical)
    + When(gaps.behavioral <= 0, StrongBehavioral)
    + When(gaps.systemDesign <= 0, StrongSystemDesign)
  }

  /** A category is a weakness when its rounded gap exceeds 15 (the else-branch of the
      strength test). */
  function Weaknesses(gaps: Categories): (r: seq<string>)
    ensures WeakTechnical in r <==> gaps.technical > 15
    ensures WeakBehavioral in r <==> gaps.behavioral > 15
    ensures WeakSystemDesign in r <==> gaps.systemDesign > 15
    ensures |r| == (if gaps.technical > 15 then 1 else 0) + (if gaps.behavioral > 15 then 1 else 0)
                   + (if gaps.systemDesign > 15 then 1 else 0)
    ensures |r| <= 3
  {
    When(!(gaps.technical <= 0) && gaps.technical > 15, WeakTechnical)
    + When(!(gaps.behavioral <= 0) && gaps.behavioral > 15, WeakBehavioral)
    + When(!(gaps.systemDesign <= 0) && gaps.systemDesign > 15, WeakSystemDesign)
  }

  /** No category is both a strength and a weakness, so the two lists hold at most three
      entries together. */
  lemma StrengthsAndWeaknessesExclusive(gaps: Categories)
    ensures !(StrongTechnical in Strengths(gaps) && WeakTechnical in Weaknesses(gaps))
    ensures !(StrongBehavioral in Strengths(gaps) && WeakBehavioral in Weaknesses(gaps))
    ensures !(StrongSystemDesign in Strengths(gaps) && WeakSystemDesign in Weaknesses(gaps))
    ensures |Strengths(gaps)| + |Weaknesses(gaps)| <= 3
  {
  }

  /** The free-text recommendations: one encouragement at a fit of 70 or more, otherwise one
      piece of advice per category whose rounded gap exceeds 10. */
  function Advice(fitScore: int, gaps: Categories, companyName: string): (r: seq<string>)
    ensures fitScore >= 70 ==> r == ["You're well-prepared for " + companyName + "! Keep practicing."]
    ensures fitScore < 70 ==>
      && |r| == |When(gaps.technical > 10, FocusTechnical)| + |When(gaps.behavioral > 10, FocusBehavioral)|
                + |When(gaps.systemDesign > 10, FocusSystemDesign)|
      && (FocusTechnical in r <==> gaps.technical > 10)
      && (FocusBehavioral in r <==> gaps.behavioral > 10)
      && (FocusSystemDesign in r <==> gaps.systemDesign > 10)
  {
    if fitScore >= 70 then ["You're well-prepared for " + companyName + "! Keep practicing."]
    else
      When(gaps.technical > 10, FocusTechnical)
      + When(gaps.behavioral > 10, FocusBehavioral)
      + When(gaps.systemDesign > 10, FocusSystemDesign)
  }

  /** The company details attached to each recommendation. */
  datatype CompanyInfo = CompanyInfo(logo: Option<string>, difficultyRating: real, acceptanceRate: real,
                                      characteristics: Characteristics)

  datatype Recommendation = Recommendation(fit: CompanyFit, companyInfo: CompanyInfo)

  /** The sort key of `recommendations.sort((a, b) => b.fitScore - a.fitScore)`. */
  function FitScoreOf(r: Recommendation): int
  {
    r.fit.fitScore
  }

  /** The body of the `companies.map` callback: the fit, its strengths, weaknesses and advice,
      and the company's details. */
  function Annotate(fit: CompanyFit, c: Company): (r: Recommendation)
    requires fit.Fit?
    ensures r.fit.Fit? && r.fit.fitScore == fit.fitScore && r.fit.gaps == fit.gaps
    ensures r.fit.strengths == fit.strengths + Strengths(fit.gaps)
    ensures r.fit.weaknesses == fit.weaknesses + Weaknesses(fit.gaps)
    ensures r.fit.recommendations == fit.recommendations + Advice(fit.fitScore, fit.gaps, c.name)
    ensures r.companyInfo.characteristics == c.characteristics && r.companyInfo.logo == c.logo
  {
    Recommendation(
      fit.(strengths := fit.strengths + Strengths(fit.gaps),
           weaknesses := fit.weaknesses + Weaknesses(fit.gaps),
           recommendations := fit.recommendations + Advice(fit.fitScore, fit.gaps, c.name)),
      CompanyInfo(c.logo, c.difficultyRating, c.acceptanceRate, c.characteristics))
  }

  /** A recommendation for the named company whose fit is in [0, 100] and whose strengths,
      weaknesses and advice are exactly those its gaps call for. */
  predicate Annotated(rec: Recommendation, name: string)
  {
    && rec.fit.Fit?
    && rec.fit.company == name
    && 0 <= rec.fit.fitScore <= 100
    && rec.fit.strengths == Strengths(rec.fit.gaps)
    && rec.fit.weaknesses == Weaknesses(rec.fit.gaps)
    && rec.fit.recommendations == Advice(rec.fit.fitScore, rec.fit.gaps, name)
  }

  /** A company of the collection is found by its name. */
  lemma LookupMember(all: seq<Company>, c: Company)
    requires c in all
    ensures Lookup(all, c.name).Some?
  {
    var k :| 0 <= k < |all| && all[k] == c;
  }

  /** A known company's fit, annotated, is a consistent recommendation. */
  lemma AnnotatedFit(interviews: seq<Interview>, c: Company, company: Option<Company>)
    requires company.Some?
    ensures CalculateCompanyFit(c.name, interviews, company).Fit?
    ensures Annotated(Annotate(CalculateCompanyFit(c.name, interviews, company), c), c.name)
  {
    var fit := CalculateCompanyFit(c.name, interviews, company);
    assert fit.strengths == [] && fit.weaknesses == [] && fit.recommendations == [];
  }

  /** The annotated fit of every company of `cs`, in collection order; `all` is the whole
      collection the fit calculation looks companies up in. */
  function AnnotateAll(interviews: seq<Interview>, cs: seq<Company>, all: seq<Company>): (r: seq<Recommendation>)
    requires forall i :: 0 <= i < |cs| ==> cs[i] in all
    ensures |r| == |cs|
    ensures forall i :: 0 <= i < |r| ==> Annotated(r[i], cs[i].name)
    ensures forall i :: 0 <= i < |r| ==>
              Lookup(all, cs[i].name).Some?
              && r[i] == Annotate(CalculateCompanyFit(cs[i].name, interviews, Lookup(all, cs[i].name)), cs[i])
  {
    if |cs| == 0 then []
    else
      var c := cs[0];
      LookupMember(all, c);
      var head := Annotate(CalculateCompanyFit(c.name, interviews, Lookup(all, c.name)), c);
      AnnotatedFit(interviews, c, Lookup(all, c.name));
      var rest := AnnotateAll(interviews, cs[1..], all);
      var out := [head] + rest;
      TailIndex(cs);
      ConsIndex(head, rest);
      out
  }

  /** The successful answer of getCompanyRecommendations. */
  datatype Recommendations =
    | NoHistory(message: string)
    | Ranked(totalCompanies: nat, bestFit: seq<Recommendation>, allRecommendations: seq<Recommendation>)

  /** getCompanyRecommendations: every company's annotated fit, best first, and the top three. */
  function GetCompanyRecommendations(userFound: bool, interviews: seq<Interview>, companies: seq<Company>): (r: Result<Recommendations>)
    ensures !userFound <==> r == Err("User not found")
    ensures userFound && |interviews| == 0 ==> r.Ok? && r.value.NoHistory?
    ensures userFound && |interviews| > 0 ==>
      && r.Ok? && r.value.Ranked?
      && r.value.totalCompanies == |companies| == |r.value.allRecommendations|
      && SortedDesc(r.value.allRecommendations, FitScoreOf)
      && multiset(r.value.allRecommendations) == multiset(AnnotateAll(interviews, companies, companies))
      && r.value.bestFit == FirstN(r.value.allRecommendations, 3)
    ensures userFound && |interviews| > 0 ==>
      forall k :: WithKey(r.value.allRecommendations, FitScoreOf, k)
                  == WithKey(AnnotateAll(interviews, companies, companies), FitScoreOf, k)
  {
    if !userFound then Err("User not found")
    else if |interviews| == 0 then
      Ok(NoHistory("Complete some interviews first to get personalized recommendations"))
    else
      var annotated := AnnotateAll(interviews, companies, companies);
      var recommendations := SortDesc(annotated, FitScoreOf);
      assert forall k :: WithKey(recommendations, FitScoreOf, k) == WithKey(annotated, FitScoreOf, k) by {
        forall k ensures WithKey(recommendations, FitScoreOf, k) == WithKey(annotated, FitScoreOf, k) {
          SortDescIsStable(annotated, FitScoreOf, k);
        }
      }
      Ok(Ranked(|recommendations|, FirstN(recommendations, 3), recommendations))
  }

  /** Every ranked recommendation carries a fit in [0, 100] whose strengths and weaknesses follow
      its gaps, and the first of the best fits is at least as good as any recommendation. */
  lemma RankedRecommendations(interviews: seq<Interview>, companies: seq<Company>, i: int)
    requires |interviews| > 0
    requires 0 <= i < |companies|
    ensures GetCompanyRecommendations(true, interviews, companies).Ok?
    ensures GetCompanyRecommendations(true, interviews, companies).value.Ranked?
    ensures var all := GetCompanyRecommendations(true, interviews, companies).value.allRecommendations;
      && 0 <= i < |all|
      && all[i].fit.Fit?
      && 0 <= all[i].fit.fitScore <= 100
      && all[i].fit.strengths == Strengths(all[i].fit.gaps)
      && all[i].fit.weaknesses == Weaknesses(all[i].fit.gaps)
      && all[0].fit.fitScore >= all[i].fit.fitScore
  {
    var annotated := AnnotateAll(interviews, companies, companies);
    var sorted := SortDesc(annotated, FitScoreOf);
    assert GetCompanyRecommendations(true, interviews, companies) == Ok(Ranked(|sorted|, FirstN(sorted, 3), sorted));
    SortedElementFromInput(annotated, FitScoreOf, i);
    var j :| 0 <= j < |annotated| && annotated[j] == sorted[i];
    assert Annotated(annotated[j], companies[j].name);
    assert FitScoreOf(sorted[0]) >= FitScoreOf(sorted[i]);
  }

  /** The scenario of a bar of 70/65/75 met exactly by one interview per category. */
  lemma ExactlyOnTheBarExample()
    ensures var interviews := [
        Interview(Some("Acme"), Some(TechnicalType), Some(70.0), 0),
        Interview(Some("Acme"), Some(BehavioralType), Some(65.0), 1),
        Interview(Some("Acme"), Some(SystemDesignType), Some(75.0), 2)];
      var fit := CalculateCompanyFit("Acme", interviews, Some(Company("Acme", None, DefaultHiringBar, 50.0, 5.0, NoCharacteristics)));
      fit.fitScore == 100 && fit.readinessLevel == Excellent && fit.successProbability == 50
  {
    var interviews := [
      Interview(Some("Acme"), Some(TechnicalType), Some(70.0), 0),
      Interview(Some("Acme"), Some(BehavioralType), Some(65.0), 1),
      Interview(Some("Acme"), Some(SystemDesignType), Some(75.0), 2)];
    var tail := interviews[1..];
    var last := interviews[2..];
    assert tail[1..] == last && last[1..] == [];
    forall t: string ensures CategoryScores(interviews, "Acme", t)
        == (if Counts(interviews[0], "Acme", t) then [ScoreOrZero(interviews[0])] else [])
         + (if Counts(interviews[1], "Acme", t) then [ScoreOrZero(interviews[1])] else [])
         + (if Counts(interviews[2], "Acme", t) then [ScoreOrZero(interviews[2])] else [])
    {
      assert CategoryScores(last, "Acme", t)
          == (if Counts(last[0], "Acme", t) then [ScoreOrZero(last[0])] else []) + CategoryScores(last[1..], "Acme", t);
      assert CategoryScores(tail, "Acme", t)
          == (if Counts(tail[0], "Acme", t) then [ScoreOrZero(tail[0])] else []) + CategoryScores(last, "Acme", t);
    }
    assert CategoryScores(interviews, "Acme", TechnicalType) == [70.0];
    assert CategoryScores(interviews, "Acme", BehavioralType) == [65.0];
    assert CategoryScores(interviews, "Acme", SystemDesignType) == [75.0];
    assert Sum([70.0]) == 70.0 && Sum([75.0]) == 75.0;
    assert CategoryAverage(interviews, "Acme", TechnicalType) == 70.0;
    assert CategoryAverage(interviews, "Acme", SystemDesignType) == 75.0;
    var c := Company("Acme", None, DefaultHiringBar, 50.0, 5.0, NoCharacteristics);
    FitOnTheBar("Acme", interviews, c);
    RoundOfInteger(50);
  }

  /** A fit of 80 at a company accepting half of its candidates gives a success probability of 40. */
  lemma SuccessProbabilityExample()
    ensures SuccessProbability(80, 50.0) == 40
  {
    RoundOfInteger(40);
  }

  // ---- getCompanyFitAnalysis ----

  /** `Math.ceil((70 - fitScore) / 5)` weeks below a fit of 70, else 'Ready now'. */
  datatype PreparationTime = Weeks(weeks: int) | ReadyNow

  datatype DetailedAnalysis = DetailedAnalysis(
    readyForInterview: bool,
    estimatedPreparationTime: PreparationTime,
    keyFocusAreas: seq<string>)

  /** The answer of getCompanyFitAnalysis. `improvement` is None where the source computes NaN
      (a missing score on the newest or the oldest company interview). */
  datatype FitAnalysis = FitAnalysis(
    fit: CompanyFit,
    interviewHistory: nat,
    improvement: Option<int>,
    lastInterviewDate: Option<Time>,
    detailedAnalysis: DetailedAnalysis)

  const DefaultFocusAreas := ["Maintain current skill level", "Practice regularly"]

  /** The message of the TypeError raised by reading `length` of an absent `weaknesses` list. */
  const UndefinedLengthError := "Cannot read properties of undefined (reading 'length')"

  function PreparationTimeFor(fitScore: int): (r: PreparationTime)
    ensures r.ReadyNow? <==> fitScore >= 70
    ensures r.Weeks? ==> 5 * (r.weeks - 1) < 70 - fitScore <= 5 * r.weeks
    ensures 0 <= fitScore < 70 ==> 1 <= r.weeks <= 14
  {
    if fitScore < 70 then Weeks(CeilDiv(70 - fitScore, 5)) else ReadyNow
  }

  /** The user's interviews aimed at the company, newest first as queried. */
  function CompanyInterviews(interviews: seq<Interview>, companyName: string): (r: seq<Interview>)
    ensures |r| <= |interviews|
    ensures forall i :: 0 <= i < |r| ==> r[i] in interviews && r[i].targetCompany == Some(companyName)
    ensures forall i :: 0 <= i < |interviews| && interviews[i].targetCompany == Some(companyName) ==> interviews[i] in r
    ensures |interviews| > 0 && interviews[0].targetCompany == Some(companyName) ==> |r| > 0 && r[0] == interviews[0]
  {
    if |interviews| == 0 then []
    else
      (if interviews[0].targetCompany == Some(companyName) then [interviews[0]] else [])
      + CompanyInterviews(interviews[1..], companyName)
  }

  /** The selection keeps the input order: selecting from a concatenation concatenates the
      selections. */
  lemma {:induction false} CompanyInterviewsAppend(xs: seq<Interview>, ys: seq<Interview>, companyName: string)
    ensures CompanyInterviews(xs + ys, companyName) == CompanyInterviews(xs, companyName) + CompanyInterviews(ys, companyName)
  {
    if |xs| > 0 {
      assert (xs + ys)[1..] == xs[1..] + ys;
      CompanyInterviewsAppend(xs[1..], ys, companyName);
    } else {
      assert xs + ys == ys;
    }
  }

  /** The oldest interview aimed at the company, when it closes the list, is the last one kept. */
  lemma LastCompanyInterview(xs: seq<Interview>, x: Interview, companyName: string)
    requires x.targetCompany == Some(companyName)
    ensures var ci := CompanyInterviews(xs + [x], companyName);
            |ci| > 0 && ci[|ci| - 1] == x
  {
    CompanyInterviewsAppend(xs, [x], companyName);
    assert CompanyInterviews([x], companyName) == [x] by {
      assert [x][1..] == [];
    }
  }

  /** Newest minus oldest score of the company's interviews; 0 with fewer than two. */
  function Improvement(ci: seq<Interview>): (r: Option<int>)
    ensures |ci| < 2 ==> r == Some(0)
    ensures |ci| >= 2 && ci[0].overallScore.Some? && ci[|ci| - 1].overallScore.Some?
            ==> r == Some(Round(ci[0].overallScore.value - ci[|ci| - 1].overallScore.value))
  {
    if |ci| >= 2 then
      match (ci[0].overallScore, ci[|ci| - 1].overallScore)
      case (Some(newest), Some(oldest)) => Some(Round(newest - oldest))
      case _ => None
    else Some(0)
  }

  function Detailed(fit: CompanyFit, focusAreas: seq<string>): DetailedAnalysis
  {
    DetailedAnalysis(
      fit.fitScore >= 70,
      PreparationTimeFor(fit.fitScore),
      if |focusAreas| > 0 then focusAreas else DefaultFocusAreas)
  }

  /** getCompanyFitAnalysis as written: the focus areas come from the weaknesses of the fit that
      calculateCompanyFit returns, and an unknown company's fit has no weaknesses list at all. */
  function GetCompanyFitAnalysis(userFound: bool, interviews: seq<Interview>, companyName: string, company: Option<Company>): (r: Result<FitAnalysis>)
    ensures !userFound ==> r == Err("User not found")
    ensures userFound && company.None? ==> r == Err(UndefinedLengthError)
    ensures userFound && company.Some? ==>
      && r.Ok?
      && r.value.fit == CalculateCompanyFit(companyName, interviews, company)
      && r.value.interviewHistory == |CompanyInterviews(interviews, companyName)|
      && r.value.improvement == Improvement(CompanyInterviews(interviews, companyName))
      && r.value.lastInterviewDate ==
         (var ci := CompanyInterviews(interviews, companyName); if |ci| > 0 then Some(ci[0].createdAt) else None)
      && (r.value.detailedAnalysis.readyForInterview <==> r.value.fit.fitScore >= 70)
      && r.value.detailedAnalysis.estimatedPreparationTime == PreparationTimeFor(r.value.fit.fitScore)
      && r.value.detailedAnalysis.keyFocusAreas == DefaultFocusAreas
  {
    if !userFound then Err("User not found")
    else
      var fit := CalculateCompanyFit(companyName, interviews, company);
      var ci := CompanyInterviews(interviews, companyName);
      if fit.Unavailable? then Err(UndefinedLengthError)
      else
        Ok(FitAnalysis(
          fit, |ci|, Improvement(ci),
          if |ci| > 0 then Some(ci[0].createdAt) else None,
          Detailed(fit, fit.weaknesses)))
  }

  /** An unknown company makes the analysis fail instead of returning the degenerate fit. */
  lemma UnknownCompanyAnalysisFails(interviews: seq<Interview>, companyName: string)
    ensures GetCompanyFitAnalysis(true, interviews, companyName, None).Err?
  {
  }

  /** A user scoring 0 everywhere against a bar of 100 is weak in all three categories, yet the
      analysis as written names only the default focus areas. */
  lemma FocusAreasIgnoreWeaknesses()
    ensures var interviews := [Interview(Some("Acme"), Some(TechnicalType), Some(0.0), 0)];
      var c := Company("Acme", None, HiringBar(100.0, 100.0, 100.0, 100.0), 50.0, 5.0, NoCharacteristics);
      && |Weaknesses(CalculateCompanyFit("Acme", interviews, Some(c)).gaps)| == 3
      && GetCompanyFitAnalysis(true, interviews, "Acme", Some(c)).value.detailedAnalysis.keyFocusAreas
         == DefaultFocusAreas
  {
    var interviews := [Interview(Some("Acme"), Some(TechnicalType), Some(0.0), 0)];
    assert CategoryScores(interviews, "Acme", TechnicalType) == [0.0];
    assert CategoryScores(interviews, "Acme", BehavioralType) == [];
    assert CategoryScores(interviews, "Acme", SystemDesignType) == [];
    RoundOfInteger(100);
  }

  /** getCompanyFitAnalysis as evidently intended: an unknown company yields the degenerate fit
      with a full detailed analysis, and the focus areas are the weaknesses of the fit's gaps. */
  function GetCompanyFitAnalysisCorrected(userFound: bool, interviews: seq<Interview>, companyName: string, company: Option<Company>): (r: Result<FitAnalysis>)
    ensures !userFound <==> r == Err("User not found")
    ensures userFound ==>
      && r.Ok?
      && r.value.fit == CalculateCompanyFit(companyName, interviews, company)
      && r.value.interviewHistory == |CompanyInterviews(interviews, companyName)|
      && r.value.improvement == Improvement(CompanyInterviews(interviews, companyName))
      && r.value.lastInterviewDate ==
         (var ci := CompanyInterviews(interviews, companyName); if |ci| > 0 then Some(ci[0].createdAt) else None)
      && (r.value.detailedAnalysis.readyForInterview <==> r.value.fit.fitScore >= 70)
      && r.value.detailedAnalysis.estimatedPreparationTime == PreparationTimeFor(r.value.fit.fitScore)
    ensures userFound && company.Some? ==>
      var gaps := r.value.fit.gaps;
      && (WeakTechnical in r.value.detailedAnalysis.keyFocusAreas <==> gaps.technical > 15)
      && (WeakBehavioral in r.value.detailedAnalysis.keyFocusAreas <==> gaps.behavioral > 15)
      && (WeakSystemDesign in r.value.detailedAnalysis.keyFocusAreas <==> gaps.systemDesign > 15)
  {
    if !userFound then Err("User not found")
    else
      var fit := CalculateCompanyFit(companyName, interviews, company);
      var ci := CompanyInterviews(interviews, companyName);
      var focus := if fit.Fit? then Weaknesses(fit.gaps) else [];
      Ok(FitAnalysis(
        fit, |ci|, Improvement(ci),
        if |ci| > 0 then Some(ci[0].createdAt) else None,
        Detailed(fit, focus)))
  }
}
