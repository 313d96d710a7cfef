/** The multigrade worksheet page of app/multigrade-worksheet/page.tsx: the
    grade registry, the upload and grade-selection handlers, and the staged
    run that extracts text once and then fills one worksheet per selected
    grade, absorbing every per-grade generation failure into a fixed
    fallback worksheet. */
module Worksheet {
  import opened Text
  import opened Outcomes
  import Library

  // ------------------------------------------------------- grade registry

  datatype Category = Primary | MiddleSchool | Secondary | HigherSecondary

  function CategoryName(c: Category): string
  {
    match c
    case Primary => "Primary"
    case MiddleSchool => "Middle School"
    case Secondary => "Secondary"
    case HigherSecondary => "Higher Secondary"
  }

  /** One checkbox of the grade list. */
  datatype GradeEntry = GradeEntry(id: string, labelText: string, value: string, category: Category)

  const Grades: seq<GradeEntry> := [
    GradeEntry("grade1", "Grade 1", "1", Primary),
    GradeEntry("grade2", "Grade 2", "2", Primary),
    GradeEntry("grade3", "Grade 3", "3", Primary),
    GradeEntry("grade4", "Grade 4", "4", Primary),
    GradeEntry("grade5", "Grade 5", "5", Primary),
    GradeEntry("grade6", "Grade 6", "6", MiddleSchool),
    GradeEntry("grade7", "Grade 7", "7", MiddleSchool),
    GradeEntry("grade8", "Grade 8", "8", MiddleSchool),
    GradeEntry("grade9", "Grade 9", "9", Secondary),
    GradeEntry("grade10", "Grade 10", "10", Secondary),
    GradeEntry("grade11", "Grade 11", "11", HigherSecondary),
    GradeEntry("grade12", "Grade 12", "12", HigherSecondary)
  ]

  /** The order in which the page lists the bands. */
  const Categories: seq<Category> := [Primary, MiddleSchool, Secondary, HigherSecondary]

  /** The band a numeric grade belongs to. */
  function Band(n: nat): Category
  {
    if n <= 5 then Primary else if n <= 8 then MiddleSchool else if n <= 10 then Secondary else HigherSecondary
  }

  /** The registry holds grades 1 to 12 in order, each with its decimal
      value, id "grade<n>", label "Grade <n>" and the band of its number, and
      no two entries share a value. */
  lemma GradeRegistry()
    ensures |Grades| == 12
    ensures forall i :: 0 <= i < |Grades| ==>
      && Grades[i].value == NatToString(i + 1)
      && Grades[i].id == "grade" + Grades[i].value
      && Grades[i].labelText == "Grade " + Grades[i].value
      && Grades[i].category == Band(i + 1)
    ensures forall i, j :: 0 <= i < j < |Grades| ==> Grades[i].value != Grades[j].value
  {
    forall i | 0 <= i < |Grades| ensures Grades[i].value == NatToString(i + 1) {
      assert NatToString(10) == "10" && NatToString(11) == "11" && NatToString(12) == "12";
    }
    forall i, j | 0 <= i < j < |Grades| ensures Grades[i].value != Grades[j].value {
      if Grades[i].value == Grades[j].value {
        NatToStringInjective(i + 1, j + 1);
      }
    }
  }

  // ------------------------------------------------------------ the inputs

  /** The picked file; `size` is only displayed. */
  datatype UploadedFile = UploadedFile(name: string, mimeType: string, size: nat)

  predicate IsImage(f: UploadedFile)
  {
    StartsWith(f.mimeType, "image/")
  }

  /** `selectedGrades.filter((g) => g !== gradeValue)`. */
  function RemoveGrade(grades: seq<string>, value: string): (r: seq<string>)
  {
    if grades == [] then []
    else if grades[0] != value then [grades[0]] + RemoveGrade(grades[1..], value)
    else RemoveGrade(grades[1..], value)
  }

  /** Unchecking a grade removes every occurrence of it and keeps the other
      grades, in order and with their multiplicities. */
  lemma {:induction false} RemoveGradeMeaning(grades: seq<string>, value: string)
    ensures value !in RemoveGrade(grades, value)
    ensures forall g :: g != value ==> multiset(RemoveGrade(grades, value))[g] == multiset(grades)[g]
    ensures Library.Subsequence(RemoveGrade(grades, value), grades)
  {
    if grades != [] {
      RemoveGradeMeaning(grades[1..], value);
      assert grades == [grades[0]] + grades[1..];
      var r := RemoveGrade(grades, value);
      if grades[0] != value {
        assert r[0] == grades[0] && r[1..] == RemoveGrade(grades[1..], value);
      }
    }
  }

  // ------------------------------------------------------------- worksheets

  datatype GeneratedWorksheet = GeneratedWorksheet(title: string, content: string, grade: string)

  /** One call of `generateWorksheet(extractedText, grade, "Mathematics")`;
      `index` numbers the calls of a run, so two calls for the same grade may
      get different answers. */
  datatype GenerationCall = GenerationCall(index: nat, extractedText: string, grade: string, subject: string)

  const Subject := "Mathematics"

  function WorksheetTitle(grade: string): string
  {
    "Grade " + grade + " Worksheet - Mathematics"
  }

  /** The text `simulateOCR` resolves with, whatever the image, one element
      per line. */
  function SimulatedOcrLines(): seq<string>
  {
    [ "Sample textbook content about mathematics:", "",
      "Addition and Subtraction", "",
      "Addition is the process of combining two or more numbers to get their total or sum.",
      "Example: 5 + 3 = 8", "",
      "Subtraction is the process of taking away one number from another.",
      "Example: 8 - 3 = 5", "",
      "Practice Problems:", "1. 12 + 8 = ?", "2. 25 - 7 = ?", "3. 34 + 16 = ?", "",
      "Word Problems:",
      "Ram has 15 apples. He gives 6 apples to his friend. How many apples does Ram have left?" ]
  }

  function SimulatedOcrText(): string
  {
    JoinWith(SimulatedOcrLines(), "\n")
  }

  /** `simulateOCR(file)`: resolves with the fixed text whatever the file, so
      the handler's catch is unreachable through it. */
  function SimulateOcr(file: UploadedFile): Outcome<string>
  {
    Resolved(SimulatedOcrText())
  }

  // -------------------------------------------------------- the fallback

  /** The template's `grade <= "3"`: a comparison of STRINGS. */
  predicate SmallArithmetic(grade: string)
  {
    LexLessEq(grade, "3")
  }

  /** The template's `grade <= "5"`. */
  predicate SmallWordProblem(grade: string)
  {
    LexLessEq(grade, "5")
  }

  /** The ten variable lines of the fallback template. */
  datatype FallbackLines = FallbackLines(
    add1: string, add2: string, sub1: string, sub2: string,
    word: string, pattern: string,
    key1: string, key2: string, key3: string, key4: string)

  /** Each line chosen by its own comparison, as the template writes it. */
  function FallbackLinesFor(grade: string): FallbackLines
  {
    FallbackLines(
      if SmallArithmetic(grade) then "5 + 3 = ___" else "125 + 78 = ___",
      if SmallArithmetic(grade) then "7 + 2 = ___" else "234 + 156 = ___",
      if SmallArithmetic(grade) then "9 - 4 = ___" else "200 - 85 = ___",
      if SmallArithmetic(grade) then "8 - 3 = ___" else "345 - 167 = ___",
      if SmallWordProblem(grade) then FarmerProblem else ShopkeeperProblem,
      if SmallArithmetic(grade) then "2, 4, 6, ___, ___" else "5, 10, 15, ___, ___",
      if SmallArithmetic(grade) then "8, 9" else "203, 390",
      if SmallArithmetic(grade) then "5, 5" else "115, 178",
      if SmallWordProblem(grade) then "7 mangoes" else "70 items",
      if SmallArithmetic(grade) then "8, 10" else "20, 25")
  }

  /** The fallback template, one element per line. */
  function FallbackTemplate(grade: string, l: FallbackLines): seq<string>
  {
    [ "Name: _________________ Date: _________", "",
      "MATHEMATICS WORKSHEET - GRADE " + grade, "",
      "Based on the uploaded content, here are practice problems:", "",
      "1. Solve the following addition problems:",
      "   " + l.add1,
      "   " + l.add2, "",
      "2. Solve the following subtraction problems:",
      "   " + l.sub1,
      "   " + l.sub2, "",
      "3. Word Problems:",
      "   " + l.word, "",
      "4. Practice Section:",
      "   Complete the following patterns:",
      "   " + l.pattern, "",
      "Answer Key (for teacher):",
      "1. " + l.key1,
      "2. " + l.key2,
      "3. " + l.key3,
      "4. " + l.key4 ]
  }

  /** The fallback worksheet body: a function of the grade string alone. */
  function FallbackContent(grade: string): string
  {
    JoinWith(FallbackTemplate(grade, FallbackLinesFor(grade)), "\n")
  }

  /** An arithmetic problem of the template, with its answer. */
  datatype Problem = Sum(a: nat, b: nat) | Difference(a: nat, b: nat)

  function Answer(p: Problem): int
  {
    match p
    case Sum(a, b) => a + b
    case Difference(a, b) => a - b
  }

  function ProblemText(p: Problem): string
  {
    match p
    case Sum(a, b) => NatToString(a) + " + " + NatToString(b) + " = ___"
    case Difference(a, b) => NatToString(a) + " - " + NatToString(b) + " = ___"
  }

  function AnswerText(p: Problem): string
  {
    if Answer(p) >= 0 then NatToString(Answer(p)) else "-" + NatToString(-Answer(p))
  }

  /** The four arithmetic problems of each variant. */
  function ArithmeticProblems(small: bool): seq<Problem>
  {
    if small then [Sum(5, 3), Sum(7, 2), Difference(9, 4), Difference(8, 3)]
    else [Sum(125, 78), Sum(234, 156), Difference(200, 85), Difference(345, 167)]
  }

  /** The counting pattern: three terms shown, the next two asked for. */
  function PatternText(start: nat, step: nat): string
  {
    NatToString(start) + ", " + NatToString(start + step) + ", " + NatToString(start + 2 * step) + ", ___, ___"
  }

  function PatternKey(start: nat, step: nat): string
  {
    NatToString(start + 3 * step) + ", " + NatToString(start + 4 * step)
  }

  const FarmerProblem := "A farmer has 12 mangoes. He sells 5 mangoes. How many mangoes are left?"
  const ShopkeeperProblem := "A shopkeeper bought 250 items and sold 180 items. How many items are remaining?"

  /** The small-number problems render as the template's lines, and its key holds their answers. */
  lemma SmallAdditionRenders()
    ensures ProblemText(Sum(5, 3)) == "5 + 3 = ___" && ProblemText(Sum(7, 2)) == "7 + 2 = ___"
    ensures AnswerText(Sum(5, 3)) + ", " + AnswerText(Sum(7, 2)) == "8, 9"
  {
  }

  lemma SmallSubtractionRenders()
    ensures ProblemText(Difference(9, 4)) == "9 - 4 = ___" && ProblemText(Difference(8, 3)) == "8 - 3 = ___"
    ensures AnswerText(Difference(9, 4)) + ", " + AnswerText(Difference(8, 3)) == "5, 5"
  {
  }

  lemma SmallPatternRenders()
    ensures PatternText(2, 2) == "2, 4, 6, ___, ___" && PatternKey(2, 2) == "8, 10"
  {
    assert NatToString(10) == "10";
  }

  lemma Render125()
    ensures ProblemText(Sum(125, 78)) == "125 + 78 = ___"
  {
    assert NatToString(125) == "125" && NatToString(78) == "78";
  }

  lemma Render234()
    ensures ProblemText(Sum(234, 156)) == "234 + 156 = ___"
  {
    assert NatToString(234) == "234" && NatToString(156) == "156";
  }

  lemma Render200()
    ensures ProblemText(Difference(200, 85)) == "200 - 85 = ___"
  {
    assert NatToString(200) == "200" && NatToString(85) == "85";
  }

  lemma Render345()
    ensures ProblemText(Difference(345, 167)) == "345 - 167 = ___"
  {
    assert NatToString(345) == "345" && NatToString(167) == "167";
  }

  /** The large-number variant's key lines hold the answers of its problems. */
  lemma LargeAdditionKey()
    ensures AnswerText(Sum(125, 78)) + ", " + AnswerText(Sum(234, 156)) == "203, 390"
  {
    assert NatToString(203) == "203" && NatToString(390) == "390";
  }

  lemma LargeSubtractionKey()
    ensures AnswerText(Difference(200, 85)) + ", " + AnswerText(Difference(345, 167)) == "115, 178"
  {
    assert NatToString(115) == "115" && NatToString(178) == "178";
  }

  lemma LargePatternRenders()
    ensures PatternText(5, 5) == "5, 10, 15, ___, ___"
  {
    NatToStringTwo(10);
    NatToStringTwo(15);
    assert PatternText(5, 5) == "5" + ", " + "10" + ", " + "15" + ", ___, ___";
  }

  lemma LargePatternKey()
    ensures PatternKey(5, 5) == "20, 25"
  {
    assert NatToString(20) == "20" && NatToString(25) == "25";
  }

  /** Every arithmetic answer in the fallback's answer key is the true
      answer of the problem shown for that grade: the key lines and the
      problem lines are chosen by the same comparison, so they never
      disagree. */
  lemma FallbackArithmeticKeyCorrect(grade: string)
    ensures var l, ps := FallbackLinesFor(grade), ArithmeticProblems(SmallArithmetic(grade));
      && l.add1 == ProblemText(ps[0]) && l.add2 == ProblemText(ps[1])
      && l.key1 == AnswerText(ps[0]) + ", " + AnswerText(ps[1])
      && l.sub1 == ProblemText(ps[2]) && l.sub2 == ProblemText(ps[3])
      && l.key2 == AnswerText(ps[2]) + ", " + AnswerText(ps[3])
  {
    if SmallArithmetic(grade) {
      SmallAdditionRenders();
      SmallSubtractionRenders();
    } else {
      Render125();
      Render234();
      Render200();
      Render345();
      LargeAdditionKey();
      LargeSubtractionKey();
    }
  }

  /** The pattern's key continues the pattern shown. */
  lemma FallbackPatternKeyCorrect(grade: string)
    ensures var l := FallbackLinesFor(grade);
      if SmallArithmetic(grade) then l.pattern == PatternText(2, 2) && l.key4 == PatternKey(2, 2)
      else l.pattern == PatternText(5, 5) && l.key4 == PatternKey(5, 5)
  {
    if SmallArithmetic(grade) {
      SmallPatternRenders();
    } else {
      LargePatternRenders();
      LargePatternKey();
    }
  }

  /** The word problem's key answers the word problem shown: 12 - 5
      mangoes, or 250 - 180 items. */
  lemma FallbackWordKeyCorrect(grade: string)
    ensures var l := FallbackLinesFor(grade);
      if SmallWordProblem(grade) then l.word == FarmerProblem && l.key3 == NatToString(12 - 5) + " mangoes"
      else l.word == ShopkeeperProblem && l.key3 == NatToString(250 - 180) + " items"
  {
    assert NatToString(70) == "70";
  }

  /** Where the string comparison departs from numeric order: every
      two-digit grade starting with "1" (the registry's 10, 11 and 12) sorts
      before "3" and before "5", so it gets the small-number variants meant
      for grades up to 3 and up to 5. */
  lemma {:induction false} TwoDigitGradesTakeSmallVariants(grade: string)
    requires |grade| == 2 && AllDigits(grade) && grade[0] == '1'
    ensures SmallArithmetic(grade) && SmallWordProblem(grade)
    ensures ParseDigits(grade) >= 10
  {
    assert grade[..1] == "1";
    assert ParseDigits(grade[..1]) == 1;
  }

  /** For one-digit grades the comparison is the numeric one. */
  lemma OneDigitGradesCompareNumerically(grade: string)
    requires |grade| == 1 && AllDigits(grade)
    ensures SmallArithmetic(grade) <==> ParseDigits(grade) <= 3
    ensures SmallWordProblem(grade) <==> ParseDigits(grade) <= 5
  {
    LexLessEqSameLength(grade, "3");
    LexLessEqSameLength(grade, "5");
  }

  /** Over the registry: the arithmetic problems are the small ones exactly
      for grades 1-3 and 10-12 (numerically intended: 1-3), and the word
      problem is the small one exactly for grades 1-5 and 10-12 (intended:
      1-5). */
  lemma RegistryBuckets()
    ensures forall i :: 0 <= i < |Grades| ==>
      (SmallArithmetic(Grades[i].value) <==> i + 1 <= 3 || i + 1 >= 10)
    ensures forall i :: 0 <= i < |Grades| ==>
      (SmallWordProblem(Grades[i].value) <==> i + 1 <= 5 || i + 1 >= 10)
  {
    GradeRegistry();
    forall i | 0 <= i < |Grades|
      ensures SmallArithmetic(Grades[i].value) <==> i + 1 <= 3 || i + 1 >= 10
      ensures SmallWordProblem(Grades[i].value) <==> i + 1 <= 5 || i + 1 >= 10
    {
      var v := Grades[i].value;
      ParseNatToString(i + 1);
      if i + 1 < 10 {
        OneDigitGradesCompareNumerically(v);
      } else {
        TwoDigitGradesTakeSmallVariants(v);
      }
    }
  }

  // ------------------------------------------------------------ the loop

  /** The body used for a grade whose call was rejected; the page passes
      `FallbackContent`. */
  type Fallback = string -> string

  /** One iteration of the per-grade loop: the collaborator's content, or
      the fallback when the call was rejected. */
  function WorksheetFor(grade: string, outcome: Outcome<string>, fallback: Fallback): GeneratedWorksheet
  {
    match outcome
    case Resolved(content) => GeneratedWorksheet(WorksheetTitle(grade), content, grade)
    case Rejected(_) => GeneratedWorksheet(WorksheetTitle(grade), fallback(grade), grade)
  }

  function CallFor(grades: seq<string>, text: string, i: nat): GenerationCall
    requires i < |grades|
  {
    GenerationCall(i, text, grades[i], Subject)
  }

  /** The `worksheets` object after the first `n` iterations of the loop. */
  function Generated(grades: seq<string>, text: string, generate: GenerationCall -> Outcome<string>,
                     fallback: Fallback, n: nat)
    : map<string, GeneratedWorksheet>
    requires n <= |grades|
  {
    if n == 0 then map[]
    else Generated(grades, text, generate, fallback, n - 1)[grades[n - 1] :=
           WorksheetFor(grades[n - 1], generate(CallFor(grades, text, n - 1)), fallback)]
  }

  /** Completeness: the keys are exactly the grades iterated over, and
      every entry carries its own grade and title. */
  lemma {:induction false} GeneratedKeys(grades: seq<string>, text: string,
                                         generate: GenerationCall -> Outcome<string>,
                                         fallback: Fallback, n: nat)
    requires n <= |grades|
    ensures Generated(grades, text, generate, fallback, n).Keys == set i | 0 <= i < n :: grades[i]
    ensures forall k :: k in Generated(grades, text, generate, fallback, n) ==>
      Generated(grades, text, generate, fallback, n)[k].grade == k
      && Generated(grades, text, generate, fallback, n)[k].title == WorksheetTitle(k)
  {
    if n > 0 {
      GeneratedKeys(grades, text, generate, fallback, n - 1);
      assert (set i | 0 <= i < n :: grades[i]) == (set i | 0 <= i < n - 1 :: grades[i]) + {grades[n - 1]};
    }
  }

  /** The entry of a grade comes from the last call made for it: the
      collaborator's content if that call resolved, the fallback if it was
      rejected. */
  lemma {:induction false} GeneratedLastCall(grades: seq<string>, text: string,
                                             generate: GenerationCall -> Outcome<string>,
                                             fallback: Fallback, n: nat, i: nat)
    requires i < n <= |grades|
    requires forall j :: i < j < n ==> grades[j] != grades[i]
    ensures grades[i] in Generated(grades, text, generate, fallback, n)
    ensures Generated(grades, text, generate, fallback, n)[grades[i]] ==
            WorksheetFor(grades[i], generate(CallFor(grades, text, i)), fallback)
  {
    if i < n - 1 {
      GeneratedLastCall(grades, text, generate, fallback, n - 1, i);
    }
  }

  /** Fault isolation: a grade's entry depends only on the calls made for
      that grade, so a failing call for one grade neither removes nor
      changes any other grade's entry. */
  lemma {:induction false} GeneratedIsolation(grades: seq<string>, text: string,
                                              gen1: GenerationCall -> Outcome<string>,
                                              gen2: GenerationCall -> Outcome<string>,
                                              fallback: Fallback, n: nat, k: string)
    requires n <= |grades|
    requires forall j :: 0 <= j < n && grades[j] == k ==>
               gen1(CallFor(grades, text, j)) == gen2(CallFor(grades, text, j))
    ensures k in Generated(grades, text, gen1, fallback, n) <==> k in Generated(grades, text, gen2, fallback, n)
    ensures k in Generated(grades, text, gen1, fallback, n) ==>
            Generated(grades, text, gen1, fallback, n)[k] == Generated(grades, text, gen2, fallback, n)[k]
  {
    if n > 0 {
      GeneratedIsolation(grades, text, gen1, gen2, fallback, n - 1, k);
    }
  }

  /** After the loop every selected grade has exactly one worksheet, and
      no other key is present. */
  lemma CompletedRun(grades: seq<string>, text: string, generate: GenerationCall -> Outcome<string>,
                     fallback: Fallback)
    ensures Generated(grades, text, generate, fallback, |grades|).Keys == set g | g in grades
  {
    GeneratedKeys(grades, text, generate, fallback, |grades|);
    assert (set i | 0 <= i < |grades| :: grades[i]) == set g | g in grades by {
      forall g | g in grades ensures g in set i | 0 <= i < |grades| :: grades[i] {
        var i :| 0 <= i < |grades| && grades[i] == g;
      }
    }
  }

  /** The per-grade loop of `handleGenerateWorksheets`: one call per
      selected grade, in order, each rejection replaced by the grade's
      fallback worksheet. It cannot fail, and its result has exactly the
      selected grades as keys. */
  method GenerateForGrades(grades: seq<string>, extractedText: string,
                           generate: GenerationCall -> Outcome<string>, fallback: Fallback)
    returns (worksheets: map<string, GeneratedWorksheet>)
    ensures worksheets == Generated(grades, extractedText, generate, fallback, |grades|)
    ensures worksheets.Keys == set g | g in grades
  {
    worksheets := map[];
    for i := 0 to |grades|
      invariant worksheets == Generated(grades, extractedText, generate, fallback, i)
    {
      var grade := grades[i];
      var outcome := generate(GenerationCall(i, extractedText, grade, Subject));
      match outcome {
        case Resolved(content) =>
          worksheets := worksheets[grade := GeneratedWorksheet(WorksheetTitle(grade), content, grade)];
        case Rejected(_) =>
          worksheets := worksheets[grade := GeneratedWorksheet(WorksheetTitle(grade), fallback(grade), grade)];
      }
    }
    CompletedRun(grades, extractedText, generate, fallback);
  }

  // ------------------------------------------------------------ the page

  /** A progress bar that never moves backwards. */
  predicate NonDecreasing(s: seq<int>)
  {
    forall i, j :: 0 <= i < j < |s| ==> s[i] <= s[j]
  }

  /** The values a run adds to the progress log: 0, 25, 50 and, when the
      extraction succeeds, 75, 90, 100. */
  function RunSteps(completed: bool): seq<int>
  {
    if completed then [0, 25, 50, 75, 90, 100] else [0, 25, 50]
  }

  /** Whatever was logged before, the values a run adds never decrease, and
      they reach 100 exactly when the run completes. */
  lemma RunProgress(before: seq<int>, completed: bool)
    ensures var log := before + RunSteps(completed);
      && log[|before|..] == RunSteps(completed)
      && NonDecreasing(log[|before|..])
      && (100 in log[|before|..] <==> completed)
  {
    var log := before + RunSteps(completed);
    assert log[|before|..] == RunSteps(completed);
    if completed {
      assert RunSteps(completed)[5] == 100;
    }
  }

  class WorksheetPage {
    var selectedFile: Option<UploadedFile>
    var selectedGrades: seq<string>
    var isProcessing: bool
    var progress: int
    var generatedWorksheets: map<string, GeneratedWorksheet>
    var error: string
    /** Every value passed to `setProgress`, in order. */
    ghost var progressLog: seq<int>

    constructor ()
      ensures selectedFile == None && selectedGrades == [] && !isProcessing
      ensures progress == 0 && generatedWorksheets == map[] && error == "" && progressLog == []
    {
      selectedFile, selectedGrades, isProcessing := None, [], false;
      progress, generatedWorksheets, error := 0, map[], "";
      progressLog := [];
    }

    /** `handleFileUpload`: the first picked file is kept (and the error
        cleared) only when its type starts with "image/"; otherwise, or when
        nothing was picked, nothing changes. */
    method HandleFileUpload(files: seq<UploadedFile>)
      modifies this
      ensures files != [] && IsImage(files[0]) ==> selectedFile == Some(files[0]) && error == ""
      ensures !(files != [] && IsImage(files[0])) ==> selectedFile == old(selectedFile) && error == old(error)
      ensures selectedGrades == old(selectedGrades) && isProcessing == old(isProcessing)
      ensures progress == old(progress) && generatedWorksheets == old(generatedWorksheets)
      ensures progressLog == old(progressLog)
    {
      if files != [] {
        var file := files[0];
        if StartsWith(file.mimeType, "image/") {
          selectedFile := Some(file);
          error := "";
        }
      }
    }

    /** `handleGradeChange`: checking appends the value at the end,
        unchecking removes every occurrence of it. */
    method HandleGradeChange(gradeValue: string, checked: bool)
      modifies this
      ensures selectedGrades == if checked then old(selectedGrades) + [gradeValue]
                                else RemoveGrade(old(selectedGrades), gradeValue)
      ensures selectedFile == old(selectedFile) && isProcessing == old(isProcessing)
      ensures progress == old(progress) && generatedWorksheets == old(generatedWorksheets)
      ensures error == old(error) && progressLog == old(progressLog)
    {
      if checked {
        selectedGrades := selectedGrades + [gradeValue];
      } else {
        selectedGrades := RemoveGrade(selectedGrades, gradeValue);
      }
    }

    /** `handleGenerateWorksheets`. `extraction` is how the awaited
        `simulateOCR(selectedFile)` settled (as written it always resolves
        with `SimulatedOcrText()`); `generate` answers each
        `generateWorksheet` call of the loop. */
    method HandleGenerateWorksheets(extraction: Outcome<string>,
                                    generate: GenerationCall -> Outcome<string>)
      modifies this
      // validation: no file or no grade leaves every field as it was
      ensures old(selectedFile).None? || old(selectedGrades) == [] ==>
        && selectedFile == old(selectedFile) && selectedGrades == old(selectedGrades)
        && isProcessing == old(isProcessing) && progress == old(progress)
        && generatedWorksheets == old(generatedWorksheets) && error == old(error)
        && progressLog == old(progressLog)
      // a run leaves the inputs alone and always ends not processing; its
      // progress never decreases and reaches 100 exactly when it completes
      ensures old(selectedFile).Some? && old(selectedGrades) != [] ==>
        && selectedFile == old(selectedFile) && selectedGrades == old(selectedGrades)
        && !isProcessing
        && |old(progressLog)| <= |progressLog|
        && NonDecreasing(progressLog[|old(progressLog)|..])
        && (100 in progressLog[|old(progressLog)|..] <==> extraction.Resolved?)
      // fatal extraction failure: message shown, no worksheets, progress stops at 50
      ensures old(selectedFile).Some? && old(selectedGrades) != [] && extraction.Rejected? ==>
        && error == MessageOr(extraction.reason, "Failed to generate worksheets")
        && generatedWorksheets == map[]
        && progress == 50 && progressLog == old(progressLog) + RunSteps(false)
      // completed run: one entry per selected grade, progress ends at 100
      ensures old(selectedFile).Some? && old(selectedGrades) != [] && extraction.Resolved? ==>
        && error == ""
        && generatedWorksheets == Generated(selectedGrades, extraction.value, generate, FallbackContent, |selectedGrades|)
        && progress == 100 && progressLog == old(progressLog) + RunSteps(true)
    {
      if selectedFile.None? {
        return;
      }
      if |selectedGrades| == 0 {
        return;
      }

      isProcessing := true;
      SetProgress(0);
      error := "";
      generatedWorksheets := map[];

      SetProgress(25);
      SetProgress(50);
      if extraction.Rejected? {
        error := MessageOr(extraction.reason, "Failed to generate worksheets");
        isProcessing := false;
        assert progressLog == old(progressLog) + RunSteps(false);
        RunProgress(old(progressLog), false);
        return;
      }
      var extractedText := extraction.value;
      SetProgress(75);
      SetProgress(90);

      var worksheets := GenerateForGrades(selectedGrades, extractedText, generate, FallbackContent);
      generatedWorksheets := worksheets;
      SetProgress(100);
      isProcessing := false;
      assert progressLog == old(progressLog) + RunSteps(true);
      RunProgress(old(progressLog), true);
    }

    /** `handleSaveWorksheet(grade)`: saves the grade's worksheet under its
        title with metadata grade and subject "General". A grade without a
        worksheet makes the handler throw before anything is saved, and a
        rejected save (`saveFails`) leaves the store as it was; the page
        itself only shows a toast either way. */
    method HandleSaveWorksheet(store: Library.LibraryStore, grade: string, idClock: nat, createdAt: int,
                               saveFails: bool)
      modifies store
      ensures grade in generatedWorksheets && !saveFails ==>
        store.storage == old(store.storage) + [Library.SavedItem(
          NatToString(idClock), Library.ItemType.Worksheet, generatedWorksheets[grade].title,
          generatedWorksheets[grade].content, map["grade" := grade, "subject" := "General"],
          createdAt, Library.DefaultUser)]
      ensures grade !in generatedWorksheets || saveFails ==> store.storage == old(store.storage)
    {
      if grade !in generatedWorksheets || saveFails {
        return;
      }
      var worksheet := generatedWorksheets[grade];
      var _ := store.SaveToLibrary(Library.ItemType.Worksheet, worksheet.title, worksheet.content,
                                   map["grade" := grade, "subject" := "General"], idClock, createdAt);
    }

    /** `setProgress`, recording the value in the log. */
    method SetProgress(value: int)
      modifies this
      ensures progress == value && progressLog == old(progressLog) + [value]
      ensures selectedFile == old(selectedFile) && selectedGrades == old(selectedGrades)
      ensures isProcessing == old(isProcessing) && generatedWorksheets == old(generatedWorksheets)
      ensures error == old(error)
    {
      progress := value;
      progressLog := progressLog + [value];
    }
  }
}
