/** Validation of the one provider response that answers all MCQs of a paper. */
module McqResults {
  import opened Wrappers
  import opened Text

  datatype Json = Null | Bool(b: bool) | Number(n: int) | Str(text: string) | List(values: seq<Json>) | Object(fields: map<Key, Json>)

  // The keys the validation looks at; the rest stay names.
  datatype Key =
    | Results | ItemId | SelectedOption | AnswerText | Explanation
    | Citations | CitationSources | CitationIds | Visuals | VisualIds | VisualId | CitedChunkIds
    | OtherKey(name: string)

  datatype Choice = Choice(name: string, text: string)
  datatype McqItem = McqItem(id: string, options: seq<Choice>)
  datatype McqResult = McqResult(id: string, selected: Option<string>, answer: string, explanation: string)

  datatype Error = ResponseInvalid | ResultsMismatch | ResultInvalid | UnknownItem | DuplicateItem
                 | ExplanationInvalid | OptionInvalid | DirectAnswerInvalid | MissingItem
  datatype Checked<+T> = Accepted(value: T) | Rejected(error: Error)

  const CITING := {Citations, CitationSources, CitationIds, Visuals, VisualIds, VisualId, CitedChunkIds}

  function Get(j: Json, key: Key): Json {
    if j.Object? && key in j.fields then j.fields[key] else Null
  }

  predicate Plain(j: Json) {
    j.Object? && j.fields.Keys !! CITING
  }

  function Ids(items: seq<McqItem>): set<string> {
    set k | 0 <= k < |items| :: items[k].id
  }

  predicate DistinctIds(items: seq<McqItem>) {
    forall i, j | 0 <= i < j < |items| :: items[i].id != items[j].id
  }

  // The text a label stands for: of repeated labels the last one counts.
  function LabelText(options: seq<Choice>, name: string): Option<string> {
    if options == [] then None
    else if options[|options| - 1].name == name then Some(options[|options| - 1].text)
    else LabelText(options[..|options| - 1], name)
  }

  /******* What an acceptable response is *******/

  predicate ExplanationFits(e: Json) {
    e.Str? && 0 < |Strip(e.text)| <= 600
  }

  // The answer to one item: with options, exactly one of their labels; without, a direct text.
  predicate AnswersItem(result: Json, item: McqItem) {
    var selected, answer := Get(result, SelectedOption), Get(result, AnswerText);
    && Plain(result) && Get(result, ItemId) == Str(item.id)
    && ExplanationFits(Get(result, Explanation))
    && SelectedOption in result.fields
    && if item.options != []
       then selected.Str? && LabelText(item.options, selected.text).Some? && (answer.Null? || answer.Str?)
       else selected.Null? && answer.Str? && Strip(answer.text) != ""
  }

  predicate AnswersSome(result: Json, items: seq<McqItem>) {
    exists i | 0 <= i < |items| :: AnswersItem(result, items[i])
  }

  predicate SameIdTwice(results: seq<Json>) {
    exists j, k | 0 <= j < k < |results| :: Get(results[j], ItemId) == Get(results[k], ItemId)
  }

  predicate AllAnswer(results: seq<Json>, items: seq<McqItem>) {
    forall k | 0 <= k < |results| :: AnswersSome(results[k], items)
  }

  predicate Acceptable(document: Json, items: seq<McqItem>) {
    && Plain(document) && Get(document, Results).List?
    && var results := Get(document, Results).values;
    && |results| == |items|
    && AllAnswer(results, items) && !SameIdTwice(results)
  }

  // What is kept of a result that answers an item.
  function Kept(result: Json, item: McqItem): McqResult
    requires AnswersItem(result, item)
  {
    var selected := Get(result, SelectedOption);
    McqResult(item.id,
              if item.options != [] then Some(selected.text) else None,
              if item.options != [] then LabelText(item.options, selected.text).value else Strip(Get(result, AnswerText).text),
              Strip(Get(result, Explanation).text))
  }

  function IdsOf(results: seq<McqResult>): set<string> {
    set k | 0 <= k < |results| :: results[k].id
  }

  // The results match the items one to one.
  predicate Matches(results: seq<McqResult>, items: seq<McqItem>) {
    && |results| == |items|
    && (forall j, k | 0 <= j < k < |results| :: results[j].id != results[k].id)
    && IdsOf(results) == Ids(items)
  }

  /******* Pigeonhole *******/

  lemma {:induction false} DistinctItemCount(items: seq<McqItem>)
    requires DistinctIds(items)
    ensures |Ids(items)| == |items|
  {
    if items == [] {
      assert Ids(items) == {};
    } else {
      var front := items[..|items| - 1];
      DistinctItemCount(front);
      assert Ids(items) == Ids(front) + {items[|items| - 1].id};
    }
  }

  lemma SubsetOfSameSize(a: set<string>, b: set<string>)
    requires a <= b && |a| == |b|
    ensures a == b
  {
    assert b == a + (b - a);
    assert |b - a| == 0;
  }

  /** Distinct results for known items, as many as there are items, leave no item out: the
      final missing-item check of the validation can never fire. */
  lemma NoneMissing(seen: set<string>, items: seq<McqItem>)
    requires DistinctIds(items) && seen <= Ids(items) && |seen| == |items|
    ensures seen == Ids(items)
  {
    DistinctItemCount(items);
    SubsetOfSameSize(seen, Ids(items));
  }

  /** So materializing an item from accepted results always finds exactly one result for it. */
  lemma LookupSucceeds(results: seq<McqResult>, items: seq<McqItem>, i: nat)
    requires Matches(results, items) && i < |items|
    ensures exists k :: 0 <= k < |results| && results[k].id == items[i].id
    ensures forall j, k | 0 <= j < |results| && 0 <= k < |results| && results[j].id == results[k].id == items[i].id :: j == k
  {
    assert items[i].id in Ids(items);
  }

  /******* The validation *******/

  method FindItem(items: seq<McqItem>, id: string) returns (at: Option<nat>)
    ensures at.Some? ==> at.value < |items| && items[at.value].id == id
    ensures at.None? <==> id !in Ids(items)
  {
    var k := 0;
    while k < |items|
      invariant k <= |items| && forall j | 0 <= j < k :: items[j].id != id
    {
      if items[k].id == id {
        return Some(k);
      }
      k := k + 1;
    }
    at := None;
  }

  method CheckResult(result: Json, item: McqItem) returns (r: Checked<McqResult>)
    requires Plain(result) && Get(result, ItemId) == Str(item.id)
    ensures r.Accepted? <==> AnswersItem(result, item)
    ensures r.Accepted? ==> r.value == Kept(result, item)
    ensures r != Rejected(MissingItem)
  {
    var explanation := Get(result, Explanation);
    if !explanation.Str? || Strip(explanation.text) == "" || |Strip(explanation.text)| > 600 {
      return Rejected(ExplanationInvalid);
    }
    if SelectedOption !in result.fields {
      return Rejected(OptionInvalid);
    }
    var selected, answer := Get(result, SelectedOption), Get(result, AnswerText);
    var chosen: Option<string>, text := None, "";
    if item.options != [] {
      if !selected.Str? || LabelText(item.options, selected.text).None? {
        return Rejected(OptionInvalid);
      }
      if !answer.Null? && !answer.Str? {
        return Rejected(ResultInvalid);
      }
      chosen, text := Some(selected.text), LabelText(item.options, selected.text).value;
    } else {
      if !selected.Null? || !answer.Str? || Strip(answer.text) == "" {
        return Rejected(DirectAnswerInvalid);
      }
      text := Strip(answer.text);
    }
    r := Accepted(McqResult(item.id, chosen, text, Strip(explanation.text)));
  }

  // The result answers item `i`, and is kept as `kept`.
  predicate Fits(result: Json, items: seq<McqItem>, i: nat, kept: McqResult) {
    i < |items| && AnswersItem(result, items[i]) && kept == Kept(result, items[i])
  }

  ghost predicate KeptFor(result: Json, items: seq<McqItem>, kept: McqResult) {
    exists i: nat :: Fits(result, items, i, kept)
  }

  /** One result: fits the item it names, unless that item is unknown or was seen before. */
  method CheckNext(result: Json, items: seq<McqItem>, seen: set<string>) returns (r: Checked<McqResult>, ghost i: nat)
    requires DistinctIds(items)
    ensures r.Accepted? ==> Fits(result, items, i, r.value) && r.value.id !in seen
    ensures r.Rejected? && AnswersSome(result, items) ==> Get(result, ItemId).Str? && Get(result, ItemId).text in seen
    ensures r != Rejected(MissingItem)
  {
    i := 0;
    if !Plain(result) {
      return Rejected(ResultInvalid), i;
    }
    var id := Get(result, ItemId);
    if !id.Str? {
      return Rejected(UnknownItem), i;
    }
    var at := FindItem(items, id.text);
    if at.None? {
      UnknownAnswersNone(result, items);
      return Rejected(UnknownItem), i;
    }
    if id.text in seen {
      return Rejected(DuplicateItem), i;
    }
    i := at.value;
    r := CheckResult(result, items[at.value]);
    OnlyItsOwnItem(result, items, at.value);
  }

  lemma UnknownAnswersNone(result: Json, items: seq<McqItem>)
    requires Get(result, ItemId).Str? && Get(result, ItemId).text !in Ids(items)
    ensures !AnswersSome(result, items)
  {
    forall i | 0 <= i < |items| ensures !AnswersItem(result, items[i]) { assert items[i].id in Ids(items); }
  }

  // Each accepted result fits the item it was matched with...
  predicate AllFit(results: seq<Json>, items: seq<McqItem>, chosen: seq<nat>, validated: seq<McqResult>) {
    && |results| == |chosen| == |validated|
    && forall j | 0 <= j < |results| :: Fits(results[j], items, chosen[j], validated[j])
  }

  // ...and its id leads back to it, so no id was accepted twice.
  predicate Indexed(validated: seq<McqResult>, at: map<string, nat>) {
    && (forall id | id in at :: at[id] < |validated| && validated[at[id]].id == id)
    && (forall j | 0 <= j < |validated| :: validated[j].id in at && at[validated[j].id] == j)
  }

  lemma FitOneMore(results: seq<Json>, items: seq<McqItem>, chosen: seq<nat>, validated: seq<McqResult>,
                   k: nat, i: nat, kept: McqResult)
    requires k < |results| && AllFit(results[..k], items, chosen, validated) && Fits(results[k], items, i, kept)
    ensures AllFit(results[..k + 1], items, chosen + [i], validated + [kept])
  {
    var more, chosen', validated' := results[..k + 1], chosen + [i], validated + [kept];
    forall j | 0 <= j < k + 1 ensures Fits(more[j], items, chosen'[j], validated'[j]) {
      if j < k { assert Fits(results[..k][j], items, chosen[j], validated[j]); }
    }
  }

  lemma IndexOneMore(validated: seq<McqResult>, at: map<string, nat>, kept: McqResult)
    requires Indexed(validated, at) && kept.id !in at
    ensures Indexed(validated + [kept], at[kept.id := |validated|])
  {
  }

  lemma IndexedIds(validated: seq<McqResult>, at: map<string, nat>)
    requires Indexed(validated, at)
    ensures IdsOf(validated) == at.Keys
    ensures forall j, k | 0 <= j < k < |validated| :: validated[j].id != validated[k].id
  {
    forall id | id in at ensures id in IdsOf(validated) { assert validated[at[id]].id == id; }
  }

  lemma KnownIds(results: seq<Json>, items: seq<McqItem>, chosen: seq<nat>, validated: seq<McqResult>)
    requires AllFit(results, items, chosen, validated)
    ensures IdsOf(validated) <= Ids(items)
  {
    forall j | 0 <= j < |results| ensures validated[j].id in Ids(items) {
      assert Fits(results[j], items, chosen[j], validated[j]);
    }
  }

  lemma AcceptedIds(results: seq<Json>, items: seq<McqItem>, chosen: seq<nat>, validated: seq<McqResult>, at: map<string, nat>)
    requires DistinctIds(items) && |results| == |items| == |at.Keys|
    requires AllFit(results, items, chosen, validated) && Indexed(validated, at)
    ensures at.Keys == Ids(items) && Matches(validated, items)
  {
    KnownIds(results, items, chosen, validated);
    IndexedIds(validated, at);
    NoneMissing(at.Keys, items);
  }

  lemma AcceptedAnswers(results: seq<Json>, items: seq<McqItem>, chosen: seq<nat>, validated: seq<McqResult>, at: map<string, nat>)
    requires AllFit(results, items, chosen, validated) && Indexed(validated, at)
    ensures AllAnswer(results, items) && !SameIdTwice(results)
    ensures forall k | 0 <= k < |results| :: KeptFor(results[k], items, validated[k])
  {
    forall j | 0 <= j < |results|
      ensures AnswersSome(results[j], items) && Get(results[j], ItemId) == Str(validated[j].id)
      ensures KeptFor(results[j], items, validated[j])
    {
      assert Fits(results[j], items, chosen[j], validated[j]);
    }
  }

  lemma RepeatedId(results: seq<Json>, items: seq<McqItem>, chosen: seq<nat>, validated: seq<McqResult>, at: map<string, nat>, k: nat)
    requires k < |results| && AllFit(results[..k], items, chosen, validated) && Indexed(validated, at)
    requires Get(results[k], ItemId).Str? && Get(results[k], ItemId).text in at
    ensures SameIdTwice(results)
  {
    var j := at[Get(results[k], ItemId).text];
    assert Fits(results[..k][j], items, chosen[j], validated[j]);
    assert Get(results[j], ItemId) == Get(results[k], ItemId);
  }

  // What the first k results came to.
  ghost predicate Matched(results: seq<Json>, items: seq<McqItem>, k: nat, chosen: seq<nat>, validated: seq<McqResult>, at: map<string, nat>) {
    k <= |results| && AllFit(results[..k], items, chosen, validated) && Indexed(validated, at)
  }

  lemma MatchedNone(results: seq<Json>, items: seq<McqItem>)
    ensures Matched(results, items, 0, [], [], map[])
  {
  }

  lemma MatchedOneMore(results: seq<Json>, items: seq<McqItem>, k: nat, chosen: seq<nat>, validated: seq<McqResult>, at: map<string, nat>,
                       i: nat, kept: McqResult)
    requires k < |results| && Matched(results, items, k, chosen, validated, at) && Fits(results[k], items, i, kept) && kept.id !in at
    ensures |validated| == k && Matched(results, items, k + 1, chosen + [i], validated + [kept], at[kept.id := k])
  {
    FitOneMore(results, items, chosen, validated, k, i, kept);
    IndexOneMore(validated, at, kept);
  }

  lemma KeysOneMore(at: map<string, nat>, id: string, k: nat)
    requires id !in at
    ensures at[id := k].Keys == at.Keys + {id} && |at.Keys + {id}| == |at.Keys| + 1
  {
  }

  lemma RejectedForGood(results: seq<Json>, items: seq<McqItem>, k: nat, chosen: seq<nat>, validated: seq<McqResult>, at: map<string, nat>,
                        seen: set<string>)
    requires k < |results| && Matched(results, items, k, chosen, validated, at) && at.Keys == seen
    requires AnswersSome(results[k], items) ==> Get(results[k], ItemId).Str? && Get(results[k], ItemId).text in seen
    ensures !AllAnswer(results, items) || SameIdTwice(results)
  {
    if AnswersSome(results[k], items) { RepeatedId(results, items, chosen, validated, at, k); }
  }

  lemma MatchedAll(results: seq<Json>, items: seq<McqItem>, chosen: seq<nat>, validated: seq<McqResult>, at: map<string, nat>)
    requires DistinctIds(items) && |results| == |items| == |at.Keys| && Matched(results, items, |results|, chosen, validated, at)
    ensures at.Keys == Ids(items) && Matches(validated, items) && AllAnswer(results, items) && !SameIdTwice(results)
    ensures forall k | 0 <= k < |items| :: KeptFor(results[k], items, validated[k])
  {
    assert results[..|results|] == results;
    AcceptedIds(results, items, chosen, validated, at);
    AcceptedAnswers(results, items, chosen, validated, at);
  }

  // One round of the loop.
  method KeepNext(results: seq<Json>, items: seq<McqItem>, k: nat, validated: seq<McqResult>, seen: set<string>,
                  ghost chosen: seq<nat>, ghost at: map<string, nat>)
    returns (r: Checked<McqResult>, ghost chosen': seq<nat>, ghost at': map<string, nat>)
    requires DistinctIds(items) && k < |results|
    requires Matched(results, items, k, chosen, validated, at) && at.Keys == seen && |seen| == k
    ensures r.Accepted? ==> Matched(results, items, k + 1, chosen', validated + [r.value], at')
    ensures r.Accepted? ==> at'.Keys == seen + {r.value.id} && |seen + {r.value.id}| == k + 1
    ensures r.Rejected? ==> r.error != MissingItem && (!AllAnswer(results, items) || SameIdTwice(results))
  {
    ghost var i;
    r, i := CheckNext(results[k], items, seen);
    if r.Rejected? {
      chosen', at' := chosen, at;
      RejectedForGood(results, items, k, chosen, validated, at, seen);
    } else {
      MatchedOneMore(results, items, k, chosen, validated, at, i, r.value);
      KeysOneMore(at, r.value.id, k);
      chosen', at' := chosen + [i], at[r.value.id := k];
    }
  }

  // The loop: every result kept, or the first one that cannot be.
  method KeepEach(results: seq<Json>, items: seq<McqItem>)
    returns (r: Checked<seq<McqResult>>, seen: set<string>, ghost chosen: seq<nat>, ghost at: map<string, nat>)
    requires DistinctIds(items)
    ensures r.Accepted? ==> Matched(results, items, |results|, chosen, r.value, at) && at.Keys == seen && |seen| == |results|
    ensures r.Rejected? ==> r.error != MissingItem && (!AllAnswer(results, items) || SameIdTwice(results))
  {
    var validated: seq<McqResult> := [];
    seen, chosen, at := {}, [], map[];
    MatchedNone(results, items);
    var k := 0;
    while k < |results|
      invariant k <= |results| && Matched(results, items, k, chosen, validated, at)
      invariant at.Keys == seen && |seen| == k
    {
      var checked;
      checked, chosen, at := KeepNext(results, items, k, validated, seen, chosen, at);
      if checked.Rejected? {
        r := Rejected(checked.error);
        return;
      }
      validated := validated + [checked.value];
      seen := seen + {checked.value.id};
      k := k + 1;
    }
    r := Accepted(validated);
  }

  method MatchResults(results: seq<Json>, items: seq<McqItem>) returns (r: Checked<seq<McqResult>>)
    requires DistinctIds(items) && |results| == |items|
    ensures r.Accepted? <==> AllAnswer(results, items) && !SameIdTwice(results)
    ensures r.Accepted? ==> Matches(r.value, items)
    ensures r.Accepted? ==> forall k | 0 <= k < |items| :: KeptFor(results[k], items, r.value[k])
    ensures r != Rejected(MissingItem)
  {
    var kept, seen, chosen, at := KeepEach(results, items);
    if kept.Rejected? {
      return kept;
    }
    MatchedAll(results, items, chosen, kept.value, at);
    r := if seen != Ids(items) then Rejected(MissingItem) else kept;
  }

  /** Accepts exactly the acceptable responses; what it returns matches the items one to one,
      and each returned result is what its own item's result says. */
  method ValidateMcqResults(document: Json, items: seq<McqItem>) returns (r: Checked<seq<McqResult>>)
    requires DistinctIds(items)
    ensures r.Accepted? <==> Acceptable(document, items)
    ensures r.Accepted? ==> Matches(r.value, items)
    ensures r.Accepted? ==> forall k | 0 <= k < |items| :: KeptFor(Get(document, Results).values[k], items, r.value[k])
    ensures r != Rejected(MissingItem)
  {
    if !Plain(document) {
      return Rejected(ResponseInvalid);
    }
    if !Get(document, Results).List? || |Get(document, Results).values| != |items| {
      return Rejected(ResultsMismatch);
    }
    r := MatchResults(Get(document, Results).values, items);
  }

  lemma OnlyItsOwnItem(result: Json, items: seq<McqItem>, at: nat)
    requires DistinctIds(items) && at < |items| && Get(result, ItemId) == Str(items[at].id)
    ensures AnswersSome(result, items) ==> AnswersItem(result, items[at])
  {
    forall i | 0 <= i < |items| && AnswersItem(result, items[i]) ensures i == at {
      assert items[i].id == items[at].id;
    }
  }
}
