/** The built-in question catalog: question sets keyed by set id (server.js:7-14). */
module Catalog {
  import opened Optional

  /** One multiple-choice question; `correct` is the text of the right answer. */
  datatype Question = Question(id: int, text: string, answers: seq<string>, correct: string)

  /** Id of the only question set the server ships with. */
  const DefaultSetId: string := "4h8z3k"

  const QuestionSets: map<string, seq<Question>> := map[DefaultSetId := [
    Question(1, "What is the capital of France?", ["Berlin", "Paris", "Madrid", "Rome"], "Paris"),
    Question(2, "What is 7 multiplied by 8?", ["49", "56", "64", "72"], "56"),
    Question(3, "Which is a primary color?", ["Green", "Orange", "Blue", "Purple"], "Blue"),
    Question(4, "Gimkit was created by whom?",
             ["Josh Feinsilber", "Elon Musk", "Bill Gates", "Mark Zuckerberg"], "Josh Feinsilber")
  ]]

  /** No two questions of a set share an id. */
  predicate UniqueIds(qs: seq<Question>) {
    forall i, j :: 0 <= i < j < |qs| ==> qs[i].id != qs[j].id
  }

  /** `questions.find(q => q.id === id)`: a question carrying `id`, or
      `undefined` (None) when there is none. */
  function Find(qs: seq<Question>, id: int): (r: Option<Question>)
    ensures r.None? <==> forall i :: 0 <= i < |qs| ==> qs[i].id != id
    ensures r.Some? ==> r.value in qs && r.value.id == id
  {
    if qs == [] then None
    else if qs[0].id == id then Some(qs[0])
    else Find(qs[1..], id)
  }

  /** What `find` returns is the first question carrying the id. */
  lemma {:induction false} FindFirst(qs: seq<Question>, id: int, k: int)
    requires 0 <= k < |qs| && qs[k].id == id
    requires forall j :: 0 <= j < k ==> qs[j].id != id
    ensures Find(qs, id) == Some(qs[k])
  {
    if k > 0 {
      FindFirst(qs[1..], id, k - 1);
    }
  }

  /** In a set with unique ids, looking up a member's id finds that member and
      nothing else is found under its id. */
  lemma FindInUniqueSet(qs: seq<Question>, q: Question, id: int)
    requires UniqueIds(qs) && q in qs
    ensures Find(qs, id) == Some(q) <==> id == q.id
  {
    if id == q.id {
      var k :| 0 <= k < |qs| && qs[k] == q;
      var r := Find(qs, id).value;
      var m :| 0 <= m < |qs| && qs[m] == r;
      assert m == k;
    }
  }

  /** The built-in set satisfies the uniqueness the weighting argument needs. */
  lemma DefaultSetIdsUnique()
    ensures DefaultSetId in QuestionSets && UniqueIds(QuestionSets[DefaultSetId])
    ensures |QuestionSets[DefaultSetId]| == 4
  {
  }
}
