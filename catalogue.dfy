/**
 * The static lesson and quiz catalogues (frontend/utils/lessonData.ts and
 * frontend/utils/quizData.ts). The cards look an entry up as `catalogue[id - 1]`, the
 * lesson page with `find(l => l.id === id)` and the quiz page by a bounds-checked
 * index; the lemmas here show these agree.
 */
module Catalogue {
  import opened Wrappers

  datatype Lesson = Lesson(id: int, title: string, letters: seq<string>, description: string)
  datatype Quiz = Quiz(id: int, title: string, letters: seq<string>)

  /** `lessonData`. */
  const Lessons: seq<Lesson> := [
    Lesson(1, "Lesson 1", ["A", "B", "C", "D"], "Learn the first set of ASL alphabet letters: A, B, C, and D"),
    Lesson(2, "Lesson 2", ["E", "F", "G", "H"], "Learn ASL alphabet letters: E, F, G, and H"),
    Lesson(3, "Lesson 3", ["I", "J", "K", "L"], "Learn ASL alphabet letters: I, J, K, and L"),
    Lesson(4, "Lesson 4", ["M", "N", "O", "P"], "Learn ASL alphabet letters: M, N, O, and P"),
    Lesson(5, "Lesson 5", ["Q", "R", "S", "T"], "Learn ASL alphabet letters: Q, R, S, and T"),
    Lesson(6, "Lesson 6", ["U", "V", "W", "X"], "Learn ASL alphabet letters: U, V, W, and X"),
    Lesson(7, "Lesson 7", ["Y", "Z"], "Learn the final ASL alphabet letters: Y and Z")
  ]

  /** `quizData`. */
  const Quizzes: seq<Quiz> := [
    Quiz(1, "Quiz 1", ["A", "B", "C", "D"]),
    Quiz(2, "Quiz 2", ["E", "F", "G", "H"]),
    Quiz(3, "Quiz 3", ["I", "J", "K", "L"]),
    Quiz(4, "Quiz 4", ["M", "N", "O", "P"]),
    Quiz(5, "Quiz 5", ["Q", "R", "S", "T"]),
    Quiz(6, "Quiz 6", ["U", "V", "W", "X"]),
    Quiz(7, "Quiz 7", ["Y", "Z"])
  ]

  /** The 26 one-letter strings "A" .. "Z", in order. */
  function Alphabet(): (a: seq<string>)
    ensures |a| == 26
    ensures forall i :: 0 <= i < 26 ==> |a[i]| == 1 && a[i][0] as int == 'A' as int + i
  {
    seq(26, i requires 0 <= i < 26 => [('A' as int + i) as char])
  }

  /** A single upper-case ASCII letter. */
  predicate IsLetter(s: string)
  {
    |s| == 1 && 'A' <= s[0] <= 'Z'
  }

  /** Decimal digits of a natural number, as JavaScript prints it. */
  function DecimalString(n: nat): (s: string)
    ensures |s| >= 1
    ensures forall k :: 0 <= k < |s| ==> '0' <= s[k] <= '9'
  {
    if n < 10 then [('0' as int + n) as char]
    else DecimalString(n / 10) + [('0' as int + n % 10) as char]
  }

  /** The letters of a list of entries, concatenated in catalogue order. */
  function Flatten(groups: seq<seq<string>>): (r: seq<string>)
  {
    if |groups| == 0 then [] else groups[0] + Flatten(groups[1..])
  }

  function LessonLetters(): (g: seq<seq<string>>)
  {
    seq(|Lessons|, i requires 0 <= i < |Lessons| => Lessons[i].letters)
  }

  function QuizLetters(): (g: seq<seq<string>>)
  {
    seq(|Quizzes|, i requires 0 <= i < |Quizzes| => Quizzes[i].letters)
  }

  /** `lessonData.find(l => l.id === id)`: the first lesson carrying the id, or none. */
  function FindLesson(lessons: seq<Lesson>, id: int): (r: Option<Lesson>)
    ensures r.Some? ==> r.value in lessons && r.value.id == id
    ensures r.None? ==> forall l :: l in lessons ==> l.id != id
  {
    if |lessons| == 0 then None
    else if lessons[0].id == id then Some(lessons[0])
    else FindLesson(lessons[1..], id)
  }

  /**
   * The quiz page's lookup: `quizData[id - 1]` after checking the index is in bounds,
   * and "not found" otherwise.
   */
  function QuizAt(id: int): (r: Option<Quiz>)
    ensures r.Some? <==> 1 <= id <= |Quizzes|
  {
    var index := id - 1;
    if index < 0 || index >= |Quizzes| then None else Some(Quizzes[index])
  }

  /** Entry i of the lesson catalogue carries id i + 1, so `lessonData[id - 1]` is the lesson with that id. */
  lemma LessonIdsAreIndices()
    ensures |Lessons| == 7
    ensures forall i :: 0 <= i < |Lessons| ==> Lessons[i].id == i + 1
  {
  }

  /** The page lookup by id succeeds exactly for ids 1 .. 7 and then agrees with `lessonData[id - 1]`. */
  lemma LessonLookup(id: int)
    ensures FindLesson(Lessons, id).Some? <==> 1 <= id <= |Lessons|
    ensures 1 <= id <= |Lessons| ==> FindLesson(Lessons, id) == Some(Lessons[id - 1])
  {
    LessonIdsAreIndices();
    if 1 <= id <= |Lessons| {
      FindAtIndex(Lessons, id - 1, 0);
    }
  }

  lemma {:induction false} FindAtIndex(lessons: seq<Lesson>, k: nat, base: int)
    requires k < |lessons|
    requires forall i :: 0 <= i < |lessons| ==> lessons[i].id == base + i + 1
    ensures FindLesson(lessons, base + k + 1) == Some(lessons[k])
  {
    if k > 0 {
      FindAtIndex(lessons[1..], k - 1, base + 1);
    }
  }

  /** Entry i of the quiz catalogue carries id i + 1. */
  lemma QuizIdsAreIndices()
    ensures |Quizzes| == 7
    ensures forall i :: 0 <= i < |Quizzes| ==> Quizzes[i].id == i + 1
  {
  }

  /** The quiz page's index lookup returns the quiz that carries the requested id. */
  lemma QuizLookup(id: int)
    ensures QuizAt(id).Some? ==> QuizAt(id).value.id == id && QuizAt(id).value in Quizzes
  {
    QuizIdsAreIndices();
  }

  /** Lesson n is titled "Lesson n". */
  lemma LessonTitles()
    ensures forall i :: 0 <= i < |Lessons| ==> Lessons[i].title == "Lesson " + DecimalString(i + 1)
  {
  }

  /** Quiz n is titled "Quiz n". */
  lemma QuizTitles()
    ensures forall i :: 0 <= i < |Quizzes| ==> Quizzes[i].title == "Quiz " + DecimalString(i + 1)
  {
  }

  /** Every letter is a single upper-case letter and every lesson teaches 2 to 4 of them. */
  lemma LessonLetterShape()
    ensures forall i :: 0 <= i < |Lessons| ==> 2 <= |Lessons[i].letters| <= 4
    ensures forall i, j :: 0 <= i < |Lessons| && 0 <= j < |Lessons[i].letters| ==> IsLetter(Lessons[i].letters[j])
  {
  }

  /** Every quiz letter is a single upper-case letter and no quiz is empty. */
  lemma QuizLetterShape()
    ensures forall i :: 0 <= i < |Quizzes| ==> 2 <= |Quizzes[i].letters| <= 4
    ensures forall i, j :: 0 <= i < |Quizzes| && 0 <= j < |Quizzes[i].letters| ==> IsLetter(Quizzes[i].letters[j])
  {
    QuizMatchesLesson();
    LessonLetterShape();
  }

  /** Quiz n tests exactly the letters that lesson n teaches. */
  lemma QuizMatchesLesson()
    ensures |Quizzes| == |Lessons|
    ensures forall i :: 0 <= i < |Quizzes| ==> Quizzes[i].letters == Lessons[i].letters
  {
  }

  /** The lessons cover the alphabet A .. Z in order, each letter exactly once. */
  lemma LessonsCoverAlphabet()
    ensures Flatten(LessonLetters()) == Alphabet()
  {
    var groups := LessonLetters();
    assert groups == [["A", "B", "C", "D"], ["E", "F", "G", "H"], ["I", "J", "K", "L"],
                      ["M", "N", "O", "P"], ["Q", "R", "S", "T"], ["U", "V", "W", "X"], ["Y", "Z"]];
    assert Flatten(groups[6..]) == ["Y", "Z"];
    assert Flatten(groups[5..]) == ["U", "V", "W", "X", "Y", "Z"];
    assert Flatten(groups[4..]) == ["Q", "R", "S", "T"] + Flatten(groups[5..]);
    assert Flatten(groups[3..]) == ["M", "N", "O", "P"] + Flatten(groups[4..]);
    assert Flatten(groups[2..]) == ["I", "J", "K", "L"] + Flatten(groups[3..]);
    assert Flatten(groups[1..]) == ["E", "F", "G", "H"] + Flatten(groups[2..]);
    assert Flatten(groups) == ["A", "B", "C", "D"] + Flatten(groups[1..]);
  }

  /** The quizzes cover the alphabet A .. Z in order, each letter exactly once. */
  lemma QuizzesCoverAlphabet()
    ensures Flatten(QuizLetters()) == Alphabet()
  {
    QuizMatchesLesson();
    assert QuizLetters() == LessonLetters();
    LessonsCoverAlphabet();
  }

  /** No letter of the alphabet appears twice, so each letter belongs to exactly one lesson. */
  lemma AlphabetDistinct()
    ensures forall i, j :: 0 <= i < j < 26 ==> Alphabet()[i] != Alphabet()[j]
  {
    var a := Alphabet();
    forall i, j | 0 <= i < j < 26 ensures a[i] != a[j] {
      assert a[i][0] != a[j][0];
    }
  }
}
