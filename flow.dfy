/** `add_flow`: the question list a flow chatbot is configured with. Each
    input question is a dict; only those with an `options` or an `input`
    key are sent, reduced to four keys, in their input order. */
module Flow {
  import opened Values

  /** One question dict as the caller passes it. */
  type Question = map<string, Json>

  /** The request body of `add_flow`, or the key whose lookup raised KeyError. */
  type FlowResult = Result<Json, string>

  const QUESTION := "question"
  const OPTIONS := "options"
  const INPUT := "input"
  const JSON_KEY := "jsonKey"
  const ORDER := "order"

  /** The question is sent: it has an `options` or an `input` key. */
  predicate IsSent(q: Question)
  {
    OPTIONS in q || INPUT in q
  }

  /** The answer key a sent question keeps: `options` wins over `input`. */
  function AnswerKey(q: Question): (key: string)
    requires IsSent(q)
    ensures key in q
    ensures key == OPTIONS <==> OPTIONS in q
  {
    if OPTIONS in q then OPTIONS else INPUT
  }

  /** The dict appended for `q` with answer key `answer`, or the first key
      (in the order the dict display reads them) that `q` lacks. */
  function Entry(q: Question, answer: string): (r: Result<Question, string>)
    requires answer in q
    ensures r.Success? <==> QUESTION in q && JSON_KEY in q && ORDER in q
    ensures r.Success? ==> r.value.Keys == {QUESTION, answer, JSON_KEY, ORDER}
    ensures r.Success? ==> forall k :: k in r.value ==> k in q && r.value[k] == q[k]
    ensures r.Failure? ==> r.error !in q && r.error in {QUESTION, JSON_KEY, ORDER}
    ensures r.Failure? && r.error == JSON_KEY ==> QUESTION in q
    ensures r.Failure? && r.error == ORDER ==> QUESTION in q && JSON_KEY in q
  {
    if QUESTION !in q then Failure(QUESTION)
    else if JSON_KEY !in q then Failure(JSON_KEY)
    else if ORDER !in q then Failure(ORDER)
    else Success(map[QUESTION := q[QUESTION], answer := q[answer], JSON_KEY := q[JSON_KEY], ORDER := q[ORDER]])
  }

  /** What the loop over `qs` builds: the list of entries, or the KeyError
      of the first sent question that lacks a key. Defined on prefixes, as
      the loop appends. */
  function FlowQuestions(qs: seq<Question>): Result<seq<Question>, string>
    decreases |qs|
  {
    if qs == [] then Success([])
    else
      match FlowQuestions(qs[..|qs| - 1])
      case Failure(e) => Failure(e)
      case Success(done) =>
        var q := qs[|qs| - 1];
        if !IsSent(q) then Success(done)
        else
          match Entry(q, AnswerKey(q))
          case Failure(e) => Failure(e)
          case Success(entry) => Success(done + [entry])
  }

  /** The indices of the sent questions, in increasing order. */
  function SentIndices(qs: seq<Question>): (idx: seq<nat>)
    decreases |qs|
  {
    if qs == [] then []
    else SentIndices(qs[..|qs| - 1]) + (if IsSent(qs[|qs| - 1]) then [|qs| - 1] else [])
  }

  /** `SentIndices` lists exactly the sent questions, once each, in order. */
  lemma {:induction false} SentIndicesSelect(qs: seq<Question>)
    ensures |SentIndices(qs)| <= |qs|
    ensures forall j :: 0 <= j < |SentIndices(qs)| ==> SentIndices(qs)[j] < |qs| && IsSent(qs[SentIndices(qs)[j]])
    ensures forall j, l :: 0 <= j < l < |SentIndices(qs)| ==> SentIndices(qs)[j] < SentIndices(qs)[l]
    ensures forall i :: 0 <= i < |qs| && IsSent(qs[i]) ==> i in SentIndices(qs)
    decreases |qs|
  {
    if qs != [] {
      var init := qs[..|qs| - 1];
      SentIndicesSelect(init);
      forall i | 0 <= i < |init| ensures init[i] == qs[i] { }
    }
  }

  /** A list is built exactly when every sent question has all its keys;
      otherwise the error names the missing key of the first one that does not. */
  lemma {:induction false} FlowQuestionsFailure(qs: seq<Question>)
    ensures FlowQuestions(qs).Success? <==>
      forall i :: 0 <= i < |qs| && IsSent(qs[i]) ==> Entry(qs[i], AnswerKey(qs[i])).Success?
    ensures FlowQuestions(qs).Failure? ==>
      exists i :: 0 <= i < |qs| && IsSent(qs[i]) &&
        Entry(qs[i], AnswerKey(qs[i])) == Failure(FlowQuestions(qs).error) &&
        forall j :: 0 <= j < i && IsSent(qs[j]) ==> Entry(qs[j], AnswerKey(qs[j])).Success?
    decreases |qs|
  {
    if qs != [] {
      var init := qs[..|qs| - 1];
      FlowQuestionsFailure(init);
      forall i | 0 <= i < |init| ensures init[i] == qs[i] { }
    }
  }

  /** `out[j]` is the entry of question `idx[j]`, for every `j`. */
  ghost predicate EntriesOf(qs: seq<Question>, idx: seq<nat>, out: seq<Question>)
  {
    |out| == |idx| &&
    forall j :: 0 <= j < |out| ==>
      idx[j] < |qs| && IsSent(qs[idx[j]]) && Entry(qs[idx[j]], AnswerKey(qs[idx[j]])) == Success(out[j])
  }

  /** On success the list holds, in order, the entry of every sent question
      and nothing else: never longer than the input, order preserved. */
  lemma {:induction false} FlowQuestionsContents(qs: seq<Question>)
    requires FlowQuestions(qs).Success?
    ensures |FlowQuestions(qs).value| <= |qs|
    ensures EntriesOf(qs, SentIndices(qs), FlowQuestions(qs).value)
    decreases |qs|
  {
    SentIndicesSelect(qs);
    if qs != [] {
      var init := qs[..|qs| - 1];
      var last := qs[|qs| - 1];
      FlowQuestionsContents(init);
      var out, idx := FlowQuestions(init).value, SentIndices(init);
      assert EntriesOf(init, idx, out);
      if IsSent(last) {
        var entry := Entry(last, AnswerKey(last)).value;
        assert FlowQuestions(qs).value == out + [entry];
        assert SentIndices(qs) == idx + [|qs| - 1];
        ExtendEntries(qs, init, idx, out, [|qs| - 1], [entry]);
      } else {
        assert FlowQuestions(qs).value == out;
        assert SentIndices(qs) == idx;
        ExtendEntries(qs, init, idx, out, [], []);
      }
    }
  }

  /** `EntriesOf` carries over from the list without its last question. */
  lemma ExtendEntries(qs: seq<Question>, init: seq<Question>, idx: seq<nat>, out: seq<Question>,
                      idx': seq<nat>, out': seq<Question>)
    requires qs != [] && init == qs[..|qs| - 1]
    requires EntriesOf(init, idx, out)
    requires EntriesOf(qs, idx', out')
    ensures EntriesOf(qs, idx + idx', out + out')
  {
  }

  /** The loop of `add_flow`: append the entry of every question with
      `options` (preferred) or `input`; a missing key raises KeyError. */
  method NormaliseQuestions(questions: seq<Question>) returns (r: Result<seq<Question>, string>)
    ensures r == FlowQuestions(questions)
  {
    var list: seq<Question> := [];
    for i := 0 to |questions|
      invariant FlowQuestions(questions[..i]) == Success(list)
    {
      assert questions[..i + 1][..i] == questions[..i];
      var q := questions[i];
      var entry: Result<Question, string>;
      if OPTIONS in q {
        entry := Entry(q, OPTIONS);
      } else if INPUT in q {
        entry := Entry(q, INPUT);
      } else {
        continue;
      }
      if entry.Failure? {
        FlowFailurePersists(questions, i + 1);
        return Failure(entry.error);
      }
      list := list + [entry.value];
    }
    assert questions[..|questions|] == questions;
    r := Success(list);
  }

  /** A KeyError on a prefix is the KeyError of the whole list. */
  lemma {:induction false} FlowFailurePersists(qs: seq<Question>, n: nat)
    requires n <= |qs|
    requires FlowQuestions(qs[..n]).Failure?
    ensures FlowQuestions(qs) == FlowQuestions(qs[..n])
    decreases |qs| - n
  {
    if n < |qs| {
      assert qs[..n + 1][..n] == qs[..n];
      FlowFailurePersists(qs, n + 1);
    } else {
      assert qs[..n] == qs;
    }
  }

  /** The entries as JSON objects. */
  function EntryObjects(entries: seq<Question>): (objs: seq<Json>)
    ensures |objs| == |entries|
    ensures forall j :: 0 <= j < |entries| ==> objs[j] == JObject(entries[j])
  {
    seq(|entries|, j requires 0 <= j < |entries| => JObject(entries[j]))
  }

  /** `add_flow`'s request body: the normalised questions and the API
      configuration (`url`, `method`) the flow posts its answers to. */
  method AddFlowBody(questions: seq<Question>, appConfigUrl: Json, httpMethod: Json) returns (r: FlowResult)
    ensures r.Failure? <==> FlowQuestions(questions).Failure?
    ensures r.Failure? ==> r.error == FlowQuestions(questions).error
    ensures r.Success? ==>
      r.value.JObject? && r.value.fields.Keys == {"questions", "api-config"} &&
      r.value.fields["questions"] == JList(EntryObjects(FlowQuestions(questions).value)) &&
      r.value.fields["api-config"] == JObject(map["url" := appConfigUrl, "method" := httpMethod])
  {
    var list := NormaliseQuestions(questions);
    if list.Failure? {
      return Failure(list.error);
    }
    r := Success(JObject(map[
      "questions" := JList(EntryObjects(list.value)),
      "api-config" := JObject(map["url" := appConfigUrl, "method" := httpMethod])
    ]));
  }
}
