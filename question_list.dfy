/**
 * The question-list edits of addQuestion, updateQuestion and deleteQuestion,
 * as functions on the ordered list of a quiz's questions, with the
 * properties the edits keep.
 */
module QuestionList {
  import opened QuizTypes

  /** Some question in the list carries this id. */
  predicate HasId(qs: seq<Question>, id: int) {
    exists i :: 0 <= i < |qs| && qs[i].id == id
  }

  /** No two questions of the list share an id. */
  predicate UniqueIds(qs: seq<Question>) {
    forall i, j :: 0 <= i < j < |qs| ==> qs[i].id != qs[j].id
  }

  /** `Math.max(...qs.map(q => q.id), 0)`: the largest id, or 0 when none is larger. */
  function MaxId(qs: seq<Question>): (m: int)
    ensures m >= 0
    ensures forall i :: 0 <= i < |qs| ==> qs[i].id <= m
    ensures m == 0 || exists i :: 0 <= i < |qs| && qs[i].id == m
  {
    if qs == [] then 0
    else
      var rest := MaxId(qs[1..]);
      assert forall i :: 1 <= i < |qs| ==> qs[i] == qs[1..][i - 1];
      if qs[0].id > rest then qs[0].id else rest
  }

  /** The id addQuestion gives a new question: one more than MaxId. */
  function NextId(qs: seq<Question>): (n: int)
    ensures n >= 1
    ensures forall i :: 0 <= i < |qs| ==> qs[i].id < n
    ensures qs == [] ==> n == 1
    ensures n == 1 || HasId(qs, n - 1)
  {
    MaxId(qs) + 1
  }

  /** `qs.findIndex(q => q.id === id)`: the first position holding the id, or -1. */
  function FindIndex(qs: seq<Question>, id: int): (k: int)
    ensures -1 <= k < |qs|
    ensures k == -1 <==> !HasId(qs, id)
    ensures k >= 0 ==> qs[k].id == id && forall i :: 0 <= i < k ==> qs[i].id != id
  {
    if qs == [] then -1
    else if qs[0].id == id then 0
    else
      var k := FindIndex(qs[1..], id);
      assert forall i :: 1 <= i < |qs| ==> qs[i] == qs[1..][i - 1];
      if k == -1 then -1 else k + 1
  }

  /** `qs.filter(q => q.id !== id)`. */
  function WithoutId(qs: seq<Question>, id: int): (r: seq<Question>)
    ensures |r| <= |qs|
    ensures forall i :: 0 <= i < |r| ==> r[i].id != id
    ensures forall q :: q in r <==> q in qs && q.id != id
  {
    if qs == [] then []
    else if qs[0].id == id then WithoutId(qs[1..], id)
    else [qs[0]] + WithoutId(qs[1..], id)
  }

  /**
   * The list after addQuestion: one longer, every earlier question in place,
   * and last the caller's question with only its id changed, to NextId, which
   * no earlier question carries.
   */
  function Added(qs: seq<Question>, question: Question): (r: seq<Question>)
    ensures |r| == |qs| + 1
    ensures r[..|qs|] == qs
    ensures r[|qs|] == question.(id := r[|qs|].id)
    ensures r[|qs|].id == NextId(qs)
    ensures r[|qs|].id >= 1 && !HasId(qs, r[|qs|].id)
  {
    qs + [question.(id := NextId(qs))]
  }

  /**
   * The list after updateQuestion: with an id no question has, the list as it
   * was; otherwise the same length, the question at the first matching
   * position, and every other position as it was.
   */
  function Replaced(qs: seq<Question>, question: Question): (r: seq<Question>)
    ensures !HasId(qs, question.id) ==> r == qs
    ensures HasId(qs, question.id) ==>
      var k := FindIndex(qs, question.id);
      && |r| == |qs|
      && r[k] == question
      && (forall i :: 0 <= i < |qs| && i != k ==> r[i] == qs[i])
      && (forall i :: 0 <= i < k ==> qs[i].id != question.id)
  {
    var k := FindIndex(qs, question.id);
    if k == -1 then qs else qs[k := question]
  }

  /** Adding keeps ids unique, whatever id the caller's question carried. */
  lemma AddedKeepsIdsUnique(qs: seq<Question>, question: Question)
    requires UniqueIds(qs)
    ensures UniqueIds(Added(qs, question))
  {
  }

  /** With unique ids the first match is the only match, and the replacement keeps ids unique. */
  lemma ReplacedKeepsIdsUnique(qs: seq<Question>, question: Question)
    requires UniqueIds(qs)
    ensures HasId(qs, question.id) ==>
      forall i :: 0 <= i < |qs| && qs[i].id == question.id ==> i == FindIndex(qs, question.id)
    ensures UniqueIds(Replaced(qs, question))
  {
  }

  /** Deleting an id no question has leaves the list as it was. */
  lemma {:induction false} WithoutAbsentId(qs: seq<Question>, id: int)
    requires !HasId(qs, id)
    ensures WithoutId(qs, id) == qs
  {
    if qs != [] {
      assert qs[0].id != id;
      assert !HasId(qs[1..], id) by {
        forall i | 0 <= i < |qs[1..]| ensures qs[1..][i].id != id {
          assert qs[1..][i] == qs[i + 1];
        }
      }
      WithoutAbsentId(qs[1..], id);
      assert [qs[0]] + qs[1..] == qs;
    }
  }

  /** Deleting the same id twice gives the list deleting it once gives. */
  lemma WithoutIdIdempotent(qs: seq<Question>, id: int)
    ensures WithoutId(WithoutId(qs, id), id) == WithoutId(qs, id)
  {
  }

  /**
   * Deleting works piece by piece: on a concatenation it is the concatenation of
   * the pieces' results, so the questions kept stay in their original order.
   */
  lemma {:induction false} WithoutIdDistributes(a: seq<Question>, b: seq<Question>, id: int)
    ensures WithoutId(a + b, id) == WithoutId(a, id) + WithoutId(b, id)
  {
    if a == [] {
      assert a + b == b;
    } else {
      assert (a + b)[0] == a[0];
      assert (a + b)[1..] == a[1..] + b;
      WithoutIdDistributes(a[1..], b, id);
    }
  }

  /** A single question survives deletion exactly when its id differs. */
  lemma WithoutIdOnOne(q: Question, id: int)
    ensures WithoutId([q], id) == if q.id == id then [] else [q]
  {
  }

  /** Deleting keeps ids unique. */
  lemma {:induction false} WithoutIdKeepsIdsUnique(qs: seq<Question>, id: int)
    requires UniqueIds(qs)
    ensures UniqueIds(WithoutId(qs, id))
  {
    if qs != [] {
      var rest := qs[1..];
      assert UniqueIds(rest) by {
        forall i, j | 0 <= i < j < |rest| ensures rest[i].id != rest[j].id {
          assert rest[i] == qs[i + 1] && rest[j] == qs[j + 1];
        }
      }
      WithoutIdKeepsIdsUnique(rest, id);
      if qs[0].id != id {
        var tail := WithoutId(rest, id);
        var r := [qs[0]] + tail;
        forall i, j | 0 <= i < j < |r| ensures r[i].id != r[j].id {
          if i == 0 {
            assert r[j] == tail[j - 1];
            assert tail[j - 1] in rest;
            var m :| 0 <= m < |rest| && rest[m] == tail[j - 1];
            assert qs[m + 1] == rest[m];
          } else {
            assert r[i] == tail[i - 1] && r[j] == tail[j - 1];
          }
        }
      }
    }
  }
}
