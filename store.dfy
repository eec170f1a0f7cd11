/** The mutating handlers of the form-submissions backend (/submit,
    /delete/:id, /edit/:id). The backing file is the `submissions` field:
    readDatabase reads it, writeDatabase assigns it, and each handler is one
    atomic load, change and save. */
module Server {
  import opened Table

  class Store {
    /** The whole collection, in file order. */
    var submissions: seq<Submission>

    constructor (initial: seq<Submission>)
      ensures submissions == initial
    {
      submissions := initial;
    }

    /** POST /submit: validate the five fields, give the record the id after
        the last record's, append it and save. */
    method Submit(body: Fields) returns (r: Response)
      modifies this
      ensures !Complete(body) ==> r == Failed(FieldsRequired) && submissions == old(submissions)
      ensures Complete(body) ==>
        r == Created(if old(submissions) == [] then 1 else old(submissions)[|old(submissions)| - 1].id + 1)
      ensures Complete(body) ==> submissions == old(submissions) + [WithId(r.id, body)]
      ensures r.Created? ==> ReadAt(submissions, Present(Some(|submissions| - 1))) == Found(WithId(r.id, body))
      ensures StrictlyIncreasing(old(submissions)) ==> StrictlyIncreasing(submissions)
      ensures StrictlyIncreasing(old(submissions)) && r.Created? ==>
        forall k :: 0 <= k < |old(submissions)| ==> old(submissions)[k].id != r.id
    {
      if !Complete(body) {
        return Failed(FieldsRequired);
      }
      var loaded := submissions;
      var newId := NextId(loaded);
      if StrictlyIncreasing(loaded) {
        NextIdFresh(loaded, body);
      }
      ReadAfterAppend(loaded, WithId(newId, body));
      loaded := loaded + [WithId(newId, body)];
      submissions := loaded;
      r := Created(newId);
    }

    /** DELETE /delete/:id: splice out the first record with the id and save. */
    method Delete(id: Option<int>) returns (r: Response)
      modifies this
      ensures id.None? ==> r == Failed(InvalidId) && submissions == old(submissions)
      ensures id.Some? ==>
        var i := FindIndex(old(submissions), id.value);
        (i == -1 ==> r == Failed(NotFound) && submissions == old(submissions)) &&
        (i != -1 ==> r == Deleted && submissions == old(submissions)[..i] + old(submissions)[i + 1..])
      ensures r == Deleted ==>
        |submissions| == |old(submissions)| - 1 && IsSubsequence(submissions, old(submissions))
      ensures StrictlyIncreasing(old(submissions)) ==> StrictlyIncreasing(submissions)
      ensures StrictlyIncreasing(old(submissions)) && r == Deleted ==>
        forall k :: 0 <= k < |submissions| ==> submissions[k].id != id.value
    {
      if id.None? {
        return Failed(InvalidId);
      }
      var loaded := submissions;
      var index := FindIndex(loaded, id.value);
      if index == -1 {
        return Failed(NotFound);
      }
      RemoveIsSubsequence(loaded, index);
      if StrictlyIncreasing(loaded) {
        RemoveKeepsIncreasing(loaded, index);
        IncreasingIdsIdentify(loaded, index);
      }
      loaded := loaded[..index] + loaded[index + 1..];
      submissions := loaded;
      r := Deleted;
    }

    /** PUT /edit/:id: replace the first record with the id by a record with
        the same id and exactly the new fields, and save. */
    method Edit(id: Option<int>, body: Fields) returns (r: Response)
      modifies this
      ensures id.None? || !Complete(body) ==> r == Failed(FieldsRequired) && submissions == old(submissions)
      ensures id.Some? && Complete(body) ==>
        var i := FindIndex(old(submissions), id.value);
        (i == -1 ==> r == Failed(NotFound) && submissions == old(submissions)) &&
        (i != -1 ==> r == Updated && submissions == old(submissions)[i := WithId(id.value, body)])
      ensures r == Updated ==>
        |submissions| == |old(submissions)| &&
        FindIndex(submissions, id.value) == FindIndex(old(submissions), id.value) &&
        submissions[FindIndex(submissions, id.value)] == WithId(id.value, body)
      ensures StrictlyIncreasing(old(submissions)) ==> StrictlyIncreasing(submissions)
    {
      if id.None? || !Complete(body) {
        return Failed(FieldsRequired);
      }
      var loaded := submissions;
      var index := FindIndex(loaded, id.value);
      if index == -1 {
        return Failed(NotFound);
      }
      var updated := WithId(id.value, body);
      FindAfterReplace(loaded, index, updated);
      if StrictlyIncreasing(loaded) {
        ReplaceKeepsIncreasing(loaded, index, updated);
      }
      loaded := loaded[index := updated];
      submissions := loaded;
      r := Updated;
    }
  }

  /** A sample body for the scenarios below. */
  function SampleBody(): Fields {
    Fields("Ada", "ada@example.com", "555-0100", "https://github.com/ada", "00:01:02")
  }

  /** Ids 1 and 2 are handed out in turn; a body without a phone is refused
      and nothing is stored. */
  method ScenarioCreate() {
    var store := new Store([]);
    var r := store.Submit(SampleBody());
    assert r == Created(1) && Status(r) == 201;
    r := store.Submit(SampleBody());
    assert r == Created(2);
    r := store.Submit(SampleBody().(phone := ""));
    assert r == Failed(FieldsRequired) && Status(r) == 400 && |store.submissions| == 2;
  }

  /** Deleting the last record and creating again reuses its id; deleting an
      absent id answers 404. */
  method ScenarioIdReuse() {
    var store := new Store([WithId(1, SampleBody()), WithId(2, SampleBody())]);
    var r := store.Delete(Some(2));
    assert r == Deleted;
    r := store.Submit(SampleBody());
    assert r == Created(2);
    r := store.Delete(Some(7));
    assert r == Failed(NotFound) && Status(r) == 404;
  }

  /** One record with id 5: deleting it empties the store, so position 0 is
      then not found. */
  method ScenarioDeleteThenRead() {
    var store := new Store([WithId(5, SampleBody())]);
    var r := store.Delete(Some(5));
    assert r == Deleted && Status(r) == 200;
    assert ReadAt(store.submissions, Present(Some(0))) == Failed(NotFound);
    assert Search(store.submissions, "bob@example.com") == Failed(NoMatches);
  }
}
