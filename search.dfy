/**
 * routes/search.js: `GET /search/:search` looks mentors up by name and by
 * tag, merges the two id lists, and fetches those users' public fields.
 */
module Search {
  import opened Js
  import opened Text
  import opened Errors
  import opened Database
  import opened UsersService
  import opened General

  // ---- searchByName ----

  // The fixed statement texts, written clause by clause.
  const NameHead: string := "SELECT users.id " + "FROM users " + "WHERE users.type_user = 'mentor' AND "
  const Like: string := "users.name LIKE ?"
  const Or: string := " OR "

  /** One `users.name LIKE ?` per term. */
  function Likes(n: nat): seq<string>
  {
    seq(n, _ => Like)
  }

  /** The statement text `searchByName` sends for `n` terms: the likes
      joined by ` OR `; with no term the head's trailing `AND ` stays. */
  function NameText(n: nat): string
  {
    if n == 0 then NameHead else NameHead + Join(Likes(n), Or)
  }

  /** `'%' + term.toLowerCase() + '%'` for each term, in order. */
  function NameParams(terms: seq<string>, fx: Foreign): seq<Value>
  {
    seq(|terms|, i requires 0 <= i < |terms| => Str("%" + fx.lower(terms[i]) + "%"))
  }

  function NameStatement(terms: seq<string>, fx: Foreign): Event
  {
    Statement(NameText(|terms|), NameParams(terms, fx))
  }

  /** `searchByName(db, searchArray)` */
  method SearchByName(db: Db, searchArray: array<string>, fx: Foreign) returns (a: Answer)
    modifies db
    ensures db.log == old(db.log) + [NameStatement(searchArray[..], fx)]
    ensures a == db.oracle(db.log)
  {
    var searchArrayAux: seq<Value> := [];
    var query := NameHead;
    var i := 0;
    var len := searchArray.Length;
    while i < len
      invariant 0 <= i <= len
      invariant query == NameHead + Terminated(Likes(i), Or)
      invariant searchArrayAux == NameParams(searchArray[..i], fx)
      invariant db.log == old(db.log)
    {
      AppendPiece(NameHead, Likes(i), Like, Or);
      assert Likes(i) + [Like] == Likes(i + 1);
      query := query + (Like + Or);
      searchArrayAux := searchArrayAux + [Str("%" + fx.lower(searchArray[i]) + "%")];
      assert searchArray[..i + 1] == searchArray[..i] + [searchArray[i]];
      i := i + 1;
    }
    if i != 0 {
      TrimLastSeparator(NameHead, Likes(i), Or);
      assert |Or| == 4;
      query := query[..|query| - 4];
    } else {
      assert Terminated(Likes(i), Or) == "";
      assert query == NameHead;
    }
    assert query == NameText(i);
    assert searchArray[..i] == searchArray[..];
    assert NameStatement(searchArray[..], fx) == Statement(query, searchArrayAux);
    a := db.Query(query, searchArrayAux);
  }

  // ---- searchByTags ----

  const TagHead: string := "SELECT users.id " + "FROM users, users_tags, tags " + "WHERE users.type_user = 'mentor' "
  const TagJoins: string := "AND users.id = users_tags.user_id " + "AND tags.id = users_tags.tag_id " + "AND tags.tag IN ("
  const Mark: string := "?"
  const Comma: string := ","

  /** One `?` per term. */
  function Marks(n: nat): seq<string>
  {
    seq(n, _ => Mark)
  }

  /** The statement text `searchByTags` sends for `n` terms: the marks
      joined by commas inside `IN (...)`. */
  function TagText(n: nat): string
  {
    (if n == 0 then TagHead + TagJoins else TagHead + TagJoins + Join(Marks(n), Comma)) + ")"
  }

  /** The terms lowercased, as `searchByTags` leaves the caller's array. */
  function Lowered(terms: seq<string>, fx: Foreign): seq<string>
  {
    seq(|terms|, i requires 0 <= i < |terms| => fx.lower(terms[i]))
  }

  function Strings(terms: seq<string>): seq<Value>
  {
    seq(|terms|, i requires 0 <= i < |terms| => Str(terms[i]))
  }

  /** The statement for already lowercased terms. */
  function TagStatement(lowered: seq<string>): Event
  {
    Statement(TagText(|lowered|), Strings(lowered))
  }

  /** `searchByTags(db, searchArray)`: lowercases the array in place and
      sends it as the parameters. */
  method SearchByTags(db: Db, searchArray: array<string>, fx: Foreign) returns (a: Answer)
    modifies db, searchArray
    ensures searchArray[..] == Lowered(old(searchArray[..]), fx)
    ensures db.log == old(db.log) + [TagStatement(searchArray[..])]
    ensures a == db.oracle(db.log)
  {
    ghost var original := searchArray[..];
    var query := TagHead + TagJoins;
    var i := 0;
    var len := searchArray.Length;
    while i < len
      invariant 0 <= i <= len
      invariant query == TagHead + TagJoins + Terminated(Marks(i), Comma)
      invariant searchArray[..i] == Lowered(original[..i], fx)
      invariant searchArray[i..] == original[i..]
      invariant db.log == old(db.log)
    {
      AppendPiece(TagHead + TagJoins, Marks(i), Mark, Comma);
      assert Marks(i) + [Mark] == Marks(i + 1);
      query := query + (Mark + Comma);
      LowerStep(searchArray[..], original, i, fx);
      searchArray[i] := fx.lower(searchArray[i]);
      i := i + 1;
    }
    if i != 0 {
      TrimLastSeparator(TagHead + TagJoins, Marks(i), Comma);
      assert |Comma| == 1;
      query := query[..|query| - 1];
    } else {
      assert Terminated(Marks(i), Comma) == "";
      assert query == TagHead + TagJoins;
    }
    query := query + ")";
    assert query == TagText(i);
    assert searchArray[..i] == searchArray[..];
    assert original[..i] == original;
    assert |searchArray[..]| == i;
    assert TagStatement(searchArray[..]) == Statement(query, Strings(searchArray[..]));
    a := db.Query(query, Strings(searchArray[..]));
  }

  /** One iteration of the lowercasing loop. */
  lemma LowerStep(current: seq<string>, original: seq<string>, i: nat, fx: Foreign)
    requires i < |current| == |original|
    requires current[..i] == Lowered(original[..i], fx)
    requires current[i..] == original[i..]
    ensures current[i := fx.lower(current[i])][..i + 1] == Lowered(original[..i + 1], fx)
    ensures current[i := fx.lower(current[i])][i + 1..] == original[i + 1..]
  {
    assert current[i] == current[i..][0] == original[i..][0] == original[i];
    var next := current[i := fx.lower(current[i])];
    assert next[i + 1..] == current[i + 1..] by {
      assert current[i + 1..] == current[i..][1..];
    }
    assert original[i + 1..] == original[i..][1..];
    forall k | 0 <= k < i + 1 ensures next[k] == fx.lower(original[k]) {
      if k < i {
        assert next[k] == current[..i][k];
      }
    }
    assert next[..i + 1] == Lowered(original[..i + 1], fx);
  }

  // ---- merging and collecting ids ----

  /** The row array `searchByName` resolved with, which the handler extends
      in place. */
  class RowList {
    var rows: seq<Props>

    constructor (rows: seq<Props>)
      ensures this.rows == rows
    {
      this.rows := rows;
    }

    /** `a[index] = row`, for an index inside the array or just past it. */
    method Put(index: nat, row: Props)
      requires index <= |rows|
      modifies this
      ensures rows == if index == old(|rows|) then old(rows) + [row] else old(rows)[index := row]
    {
      if index == |rows| {
        rows := rows + [row];
      } else {
        rows := rows[index := row];
      }
    }
  }

  /** The merge loop: every tag result written after the name results, into
      the name results' own array. */
  method Merge(allUsers: RowList, usersTags: seq<Props>)
    modifies allUsers
    ensures allUsers.rows == old(allUsers.rows) + usersTags
  {
    var i := 0;
    var len := |usersTags|;
    var initialSize := |allUsers.rows|;
    while i < len
      invariant 0 <= i <= len
      invariant allUsers.rows == old(allUsers.rows) + usersTags[..i]
    {
      allUsers.Put(initialSize + i, usersTags[i]);
      assert usersTags[..i + 1] == usersTags[..i] + [usersTags[i]];
      i := i + 1;
    }
    assert usersTags[..i] == usersTags;
  }

  /** The ids of the rows that have one, in order, duplicates kept. */
  function IdsOf(rows: seq<Props>): seq<Value>
  {
    if rows == [] then []
    else
      var last := rows[|rows| - 1];
      IdsOf(rows[..|rows| - 1]) + (if "id" in Keys(last) then [Lookup(last, "id")] else [])
  }

  /** The id collection loop. */
  method CollectIds(allUsers: seq<Props>) returns (searchInfoUsersId: seq<Value>)
    ensures searchInfoUsersId == IdsOf(allUsers)
  {
    searchInfoUsersId := [];
    var i := 0;
    var len := |allUsers|;
    while i < len
      invariant 0 <= i <= len
      invariant searchInfoUsersId == IdsOf(allUsers[..i])
    {
      assert allUsers[..i + 1][..i] == allUsers[..i];
      if "id" in Keys(allUsers[i]) {
        searchInfoUsersId := searchInfoUsersId + [Lookup(allUsers[i], "id")];
      }
      i := i + 1;
    }
    assert allUsers[..i] == allUsers;
  }

  /** The rows the id loop walks: the name rows and then the tag rows. A result
      that is an OK packet has no `length`, so the loops skip it (and the
      id loop then sees nothing at all). */
  function Merged(byName: Answer, byTags: Answer): seq<Props>
  {
    if !byName.Rows? then [] else byName.rows + (if byTags.Rows? then byTags.rows else [])
  }

  /** The follow-up search `{id: ids, type_user: 'mentor'}`. */
  function FollowUp(ids: seq<Value>): Props
  {
    [("id", List(ids)), ("type_user", Str("mentor"))]
  }

  /** `response.result` as a JSON value. */
  function AnswerValue(a: Answer): Value
  {
    match a
    case Rows(rs) => List(seq(|rs|, i requires 0 <= i < |rs| => Obj(rs[i])))
    case Packet(n) => Obj([("affectedRows", Num(n))])
    case Failed(_) => Undefined
  }

  // ---- the handler ----

  /** The statements a search sends, in order, and the reply. */
  datatype Run = Run(events: seq<Event>, reply: Treated)

  /** What `GET /search/:search` does, given the pool's history `h`, the
      terms, and the shared field list. A rejected query reaches the client
      as the driver's error. */
  function SearchRun(h: seq<Event>, terms: seq<string>, fields: seq<string>, oracle: Oracle, fx: Foreign): Run
  {
    var e1 := NameStatement(terms, fx);
    var byName := oracle(h + [e1]);
    if byName.Failed? then Run([e1], TreatError(Driver(byName.cause)))
    else
      var e2 := TagStatement(Lowered(terms, fx));
      var byTags := oracle(h + [e1, e2]);
      if byTags.Failed? then Run([e1, e2], TreatError(Driver(byTags.cause)))
      else
        var fetch := FetchRun(h + [e1, e2], IdsOf(Merged(byName, byTags)), fields, oracle, fx);
        Run([e1, e2] + fetch.events, fetch.reply)
  }

  /** The handler's last step after history `h`: secure a copy of the field
      list and fetch the mentors with the ids found. */
  function FetchRun(h: seq<Event>, ids: seq<Value>, fields: seq<string>, oracle: Oracle, fx: Foreign): Run
  {
    var projection := SecureToReturn(fields);
    if !AllAvailable(projection) then Run([], TreatError(Native("ReferenceError")))
    else
      var e3 := FetchStatement(ids, projection);
      Run([e3], FetchReply(Retrieved(oracle(h + [e3]), fx)))
  }

  /** The reply to what `users.get` returned or threw. */
  function FetchReply(g: Result<Answer>): Treated
  {
    if g.Throw? then TreatError(g.thrown)
    else Treated(Some(200), GetJsonToResponse(AnswerValue(g.value), Num(OK)))
  }

  /** `GET /search/:search`; `available` is `users.availableFields`, which it
      copies and does not change. */
  method SearchUsers(pool: Pool, search: string, available: StringList, fx: Foreign) returns (reply: Treated)
    modifies pool.direct
    ensures var run := SearchRun(old(pool.direct.log), Split(search, ' '), available.items, pool.direct.oracle, fx);
            pool.direct.log == old(pool.direct.log) + run.events && reply == run.reply
  {
    var terms := Split(search, ' ');
    var searchArray := new string[|terms|](i requires 0 <= i < |terms| => terms[i]);
    assert searchArray[..] == terms;
    var db := pool.direct;
    ghost var h := db.log;
    var usersName := SearchByName(db, searchArray, fx);
    if usersName.Failed? {
      return TreatError(Driver(usersName.cause));
    }
    var usersTags := SearchByTags(db, searchArray, fx);
    assert db.log == h + [NameStatement(terms, fx), TagStatement(Lowered(terms, fx))];
    if usersTags.Failed? {
      return TreatError(Driver(usersTags.cause));
    }
    var ids := FoundIds(usersName, usersTags);
    ghost var lookups := [NameStatement(terms, fx), TagStatement(Lowered(terms, fx))];
    reply := FetchFound(db, ids, available, fx);
    LogAppend(h, lookups, FetchRun(h + lookups, ids, available.items, db.oracle, fx).events);
  }

  /** The merge of the two lookups and the collection of their ids. */
  method FoundIds(usersName: Answer, usersTags: Answer) returns (ids: seq<Value>)
    ensures ids == IdsOf(Merged(usersName, usersTags))
  {
    ids := [];
    if usersName.Rows? {
      var allUsers := new RowList(usersName.rows);
      Merge(allUsers, if usersTags.Rows? then usersTags.rows else []);
      ids := CollectIds(allUsers.rows);
    }
  }

  /** The follow-up `users.get` for `{id: ids, type_user: 'mentor'}`. */
  function FetchStatement(ids: seq<Value>, projection: seq<string>): Event
  {
    var follow := FollowUp(ids);
    Statement(SelectText(follow, Some(projection)), Values(follow))
  }

  /** The handler's last step: secure a copy of the shared field list and
      fetch the users found. */
  method FetchFound(db: Db, ids: seq<Value>, available: StringList, fx: Foreign) returns (reply: Treated)
    modifies db
    ensures var fetch := FetchRun(old(db.log), ids, available.items, db.oracle, fx);
            db.log == old(db.log) + fetch.events && reply == fetch.reply
  {
    var projection := SecureCopy(available);
    if projection.Throw? {
      reply := TreatError(projection.thrown);
    } else {
      reply := FetchMentors(db, ids, projection.value, fx);
    }
  }

  /** `users.get(db, {id: ids, type_user: 'mentor'}, projection)` and the
      reply to what it returns or throws. */
  method FetchMentors(db: Db, ids: seq<Value>, projection: seq<string>, fx: Foreign) returns (reply: Treated)
    modifies db
    ensures db.log == old(db.log) + [FetchStatement(ids, projection)]
    ensures reply == FetchReply(Retrieved(db.oracle(db.log), fx))
  {
    var searchInfo := FollowUp(ids);
    var response := Get(db, searchInfo, Some(projection), fx);
    if response.Throw? {
      reply := TreatError(response.thrown);
    } else {
      reply := Treated(Some(200), GetJsonToResponse(AnswerValue(response.value), Num(OK)));
    }
  }

  // ---- properties ----

  /** Each builder sends one placeholder per parameter: `searchByName` one
      `?` per term. */
  lemma NamePlaceholders(terms: seq<string>, fx: Foreign)
    ensures Count(NameText(|terms|), '?') == |NameParams(terms, fx)| == |terms|
  {
    var n := |terms|;
    NameHeadPlain();
    if n > 0 {
      forall i | 0 <= i < n ensures Count(Likes(n)[i], '?') == 1 {
        assert Like == "users.name LIKE " + "?";
        CountOneMark("users.name LIKE ");
      }
      CountZeroIffAbsent(Or, '?');
      CountJoin(Likes(n), Or, '?', 1);
      CountPrefixed(NameHead, Join(Likes(n), Or), '?');
    } else {
      CountZeroIffAbsent(NameHead, '?');
    }
  }

  /** `searchByTags` one `?` per term as well. */
  lemma TagPlaceholders(terms: seq<string>)
    ensures Count(TagText(|terms|), '?') == |Strings(terms)| == |terms|
  {
    var n := |terms|;
    TagHeadPlain();
    var m := if n == 0 then "" else Join(Marks(n), Comma);
    assert TagText(n) == TagHead + TagJoins + (m + ")");
    if n > 0 {
      forall i | 0 <= i < n ensures Count(Marks(n)[i], '?') == 1 {
        CountOneMark("");
      }
      CountZeroIffAbsent(Comma, '?');
      CountJoin(Marks(n), Comma, '?', 1);
    }
    CountZeroIffAbsent(")", '?');
    CountAppend(m, ")", '?');
    CountPrefixed(TagHead + TagJoins, m + ")", '?');
  }

  lemma NameHeadPlain()
    ensures '?' !in NameHead
  {
    assert '?' !in "SELECT users.id ";
    assert '?' !in "FROM users ";
    assert '?' !in "WHERE users.type_user = 'mentor' AND ";
  }

  lemma TagHeadPlain()
    ensures '?' !in TagHead + TagJoins
  {
    TagTablesPlain();
    TagJoinsPlain();
  }

  lemma TagTablesPlain()
    ensures '?' !in TagHead
  {
    assert '?' !in "SELECT users.id ";
    assert '?' !in "FROM users, users_tags, tags ";
    assert '?' !in "WHERE users.type_user = 'mentor' ";
  }

  lemma TagJoinsPlain()
    ensures '?' !in TagJoins
  {
    assert '?' !in "AND users.id = users_tags.user_id ";
    assert '?' !in "AND tags.id = users_tags.tag_id ";
    assert '?' !in "AND tags.tag IN (";
  }

  /** A text with no `?` of its own, then one. */
  lemma CountOneMark(a: string)
    requires '?' !in a
    ensures Count(a + "?", '?') == 1
  {
    CountZeroIffAbsent(a, '?');
    CountAppend(a, "?", '?');
  }

  /** A search string always has at least one term, so neither builder
      leaves its head untrimmed or its `IN ()` empty. */
  lemma TermsNonEmpty(search: string, fx: Foreign)
    ensures |Split(search, ' ')| >= 1
    ensures NameText(|Split(search, ' ')|) == NameHead + Join(Likes(|Split(search, ' ')|), Or)
    ensures Count(TagText(|Split(search, ' ')|), '?') >= 1
  {
    TagPlaceholders(Split(search, ' '));
  }

  /** The merged list is the name rows followed by the tag rows, so its ids
      are the name rows' ids followed by the tag rows' ids. */
  lemma MergedIds(byName: seq<Props>, byTags: seq<Props>)
    ensures Merged(Rows(byName), Rows(byTags)) == byName + byTags
    ensures IdsOf(Merged(Rows(byName), Rows(byTags))) == IdsOf(byName) + IdsOf(byTags)
  {
    IdsOfAppend(byName, byTags);
  }

  lemma {:induction false} IdsOfAppend(a: seq<Props>, b: seq<Props>)
    ensures IdsOf(a + b) == IdsOf(a) + IdsOf(b)
  {
    if b != [] {
      var init := b[..|b| - 1];
      assert (a + b)[..|a + b| - 1] == a + init;
      IdsOfAppend(a, init);
    } else {
      assert a + b == a;
    }
  }

  /** One id per row that has one, every id read from its row, in row
      order: when every row has an id there is exactly one per row. */
  lemma {:induction false} IdsOfMeaning(rows: seq<Props>)
    ensures |IdsOf(rows)| <= |rows|
    ensures (forall i :: 0 <= i < |rows| ==> "id" in Keys(rows[i])) ==>
              IdsOf(rows) == seq(|rows|, i requires 0 <= i < |rows| => Lookup(rows[i], "id"))
  {
    if rows != [] {
      var init := rows[..|rows| - 1];
      IdsOfMeaning(init);
      if forall i :: 0 <= i < |rows| ==> "id" in Keys(rows[i]) {
        assert forall i :: 0 <= i < |init| ==> "id" in Keys(init[i]) by {
          forall i | 0 <= i < |init| ensures "id" in Keys(init[i]) {
            assert init[i] == rows[i];
          }
        }
      }
    }
  }

  /** The last step replies 200 exactly when the field filter and the fetch
      succeed; it then has sent one statement, for `{id: ids, type_user:
      'mentor'}`. Every failure is a 500. */
  lemma FetchRunOutcome(h: seq<Event>, ids: seq<Value>, fields: seq<string>, oracle: Oracle, fx: Foreign)
    ensures var fetch := FetchRun(h, ids, fields, oracle, fx);
            fetch.reply.status == Some(200) <==> AllAvailable(SecureToReturn(fields)) && !oracle(h + fetch.events).Failed?
    ensures FetchRun(h, ids, fields, oracle, fx).reply.status in {Some(200), Some(500)}
    ensures var fetch := FetchRun(h, ids, fields, oracle, fx);
            fetch.reply.status == Some(200) ==> |fetch.events| == 1 && fetch.events[0].params == [List(ids), Str("mentor")]
  {
    var projection := SecureToReturn(fields);
    if !AllAvailable(projection) {
      FetchRunRejected(h, ids, fields, oracle, fx);
    } else {
      var e3 := FetchStatement(ids, projection);
      FetchRunSent(h, ids, fields, oracle, fx);
      FetchReplyStatus(oracle(h + [e3]), fx);
      FetchParams(ids, projection);
    }
  }

  /** A field list the filter rejects sends nothing and replies 500. */
  lemma FetchRunRejected(h: seq<Event>, ids: seq<Value>, fields: seq<string>, oracle: Oracle, fx: Foreign)
    requires !AllAvailable(SecureToReturn(fields))
    ensures FetchRun(h, ids, fields, oracle, fx).events == []
    ensures FetchRun(h, ids, fields, oracle, fx).reply.status == Some(500)
  {
    TreatErrorTable(Native("ReferenceError"));
  }

  /** A field list the filter accepts sends the fetch and replies to it. */
  lemma FetchRunSent(h: seq<Event>, ids: seq<Value>, fields: seq<string>, oracle: Oracle, fx: Foreign)
    requires AllAvailable(SecureToReturn(fields))
    ensures var e3 := FetchStatement(ids, SecureToReturn(fields));
            FetchRun(h, ids, fields, oracle, fx) == Run([e3], FetchReply(Retrieved(oracle(h + [e3]), fx)))
  {
  }

  /** The fetch's parameters are the ids and `'mentor'`. */
  lemma FetchParams(ids: seq<Value>, projection: seq<string>)
    ensures FetchStatement(ids, projection).params == [List(ids), Str("mentor")]
  {
  }

  /** The fetch replies 200 unless the driver rejects it, and then 500. */
  lemma FetchReplyStatus(a: Answer, fx: Foreign)
    ensures FetchReply(Retrieved(a, fx)).status == if a.Failed? then Some(500) else Some(200)
  {
    if a.Failed? {
      assert FetchReply(Retrieved(a, fx)).status == Status(DATABASE_ERROR);
    }
  }

  /** A search replies 200 exactly when both lookups, the field filter and
      the final fetch succeed; then it has sent three statements, the last
      one for `{id, type_user: 'mentor'}`. Every failure is a 500. */
  lemma SearchRunOutcome(h: seq<Event>, terms: seq<string>, fields: seq<string>, oracle: Oracle, fx: Foreign)
    ensures var run := SearchRun(h, terms, fields, oracle, fx);
            var byName := oracle(h + [NameStatement(terms, fx)]);
            var byTags := oracle(h + [NameStatement(terms, fx), TagStatement(Lowered(terms, fx))]);
            run.reply.status == Some(200) <==>
              && !byName.Failed? && !byTags.Failed? && AllAvailable(SecureToReturn(fields))
              && !oracle(h + run.events).Failed?
    ensures SearchRun(h, terms, fields, oracle, fx).reply.status in {Some(200), Some(500)}
    ensures var run := SearchRun(h, terms, fields, oracle, fx);
            var byName := oracle(h + [NameStatement(terms, fx)]);
            var byTags := oracle(h + [NameStatement(terms, fx), TagStatement(Lowered(terms, fx))]);
            run.reply.status == Some(200) ==>
              |run.events| == 3 && run.events[2].params == [List(IdsOf(Merged(byName, byTags))), Str("mentor")]
  {
    var e1, e2 := NameStatement(terms, fx), TagStatement(Lowered(terms, fx));
    var byName, byTags := oracle(h + [e1]), oracle(h + [e1, e2]);
    if !byName.Failed? && !byTags.Failed? {
      var ids := IdsOf(Merged(byName, byTags));
      FetchRunOutcome(h + [e1, e2], ids, fields, oracle, fx);
      var fetch := FetchRun(h + [e1, e2], ids, fields, oracle, fx);
      LogAppend(h, [e1, e2], fetch.events);
    }
  }
}
