/**
 * `src/services/guildMember.service.ts`: the member query of a guild (pagination
 * defaults, the sort, the match filter it builds) and the display-name helpers.
 *
 * The database is a function parameter: given the built filter and sort it returns the
 * matching members in that order, or `None` when a query throws. The filter itself is
 * built as data and not evaluated.
 */
module GuildMembers {
  import opened Wrappers
  import opened Text
  import ChannelSort

  const DefaultLimit: nat := 10
  const DefaultPage: nat := 1
  const Others := "others"

  /** The guild member fields the core reads. */
  datatype Member = Member(discordId: string, username: string, discriminator: string,
                           nickname: Option<string>, globalName: Option<string>)

  /** JavaScript truthiness of an optional string: present and non-empty. */
  predicate Truthy(s: Option<string>) {
    s.Some? && s.value != ""
  }

  // ---------------------------------------------------------------------------
  // display names

  /** `getUsername`: the bare username for the new (`"0"`) discriminator, else `username#discriminator`. */
  function GetUsername(m: Member): (name: string)
    ensures m.discriminator == "0" ==> name == m.username
    ensures m.discriminator != "0" ==> name == m.username + "#" + m.discriminator
  {
    if m.discriminator == "0" then m.username else m.username + "#" + m.discriminator
  }

  /** `getNgu`: nickname, else global name, else `getUsername`. */
  function GetNgu(m: Member): (name: string)
    ensures Truthy(m.nickname) ==> name == m.nickname.value
    ensures !Truthy(m.nickname) && Truthy(m.globalName) ==> name == m.globalName.value
    ensures !Truthy(m.nickname) && !Truthy(m.globalName) ==> name == GetUsername(m)
  {
    if Truthy(m.nickname) then m.nickname.value
    else if Truthy(m.globalName) then m.globalName.value
    else GetUsername(m)
  }

  /**
   * For Discord names (no `#` in a username or discriminator) the displayed username
   * can be taken apart again: splitting it at `#` gives back the username, followed by
   * the discriminator exactly when it was not `"0"`.
   */
  lemma GetUsernameSplits(m: Member)
    requires '#' !in m.username && '#' !in m.discriminator
    ensures Split(GetUsername(m), '#') == if m.discriminator == "0" then [m.username] else [m.username, m.discriminator]
  {
    if m.discriminator == "0" {
      SplitNoSep(m.username, '#');
    } else {
      SplitJoin([m.username, m.discriminator], '#');
      assert Join([m.username, m.discriminator], '#') == m.username + "#" + m.discriminator by {
        assert [m.username, m.discriminator][1..] == [m.discriminator];
      }
    }
  }

  // ---------------------------------------------------------------------------
  // the query

  /** The query's filter argument. */
  datatype Filter = Filter(activityComposition: Option<seq<string>>, roles: Option<seq<string>>, ngu: Option<string>)

  /** The query's options, with `limit` and `page` already through `parseInt` (`None`: absent or not a number). */
  datatype Options = Options(sortBy: Option<string>, limit: Option<int>, page: Option<int>)

  /** A condition on `discordId`. */
  datatype IdCondition = In(ids: seq<string>) | NotIn(ids: seq<string>)

  /**
   * The `$or` of a match stage: either the two activity branches
   * `[{discordId: {$in: included}}, {discordId: {$nin: excluded}}]`, or the
   * case-insensitive search of one pattern over username, globalName and nickname.
   */
  datatype Disjunction = ActivityEither(included: seq<string>, excluded: seq<string>) | NameSearch(pattern: string)

  /** The `$match` stage, field by field; `joinedAtAtMost` is `joinedAt: {$lte: date}`. */
  datatype MatchStage = MatchStage(discordId: Option<IdCondition>, or: Option<Disjunction>,
                                   roles: Option<seq<string>>, joinedAtAtMost: Option<int>)

  const EmptyStage := MatchStage(None, None, None, None)

  /** `limit` of the query: the parsed option when positive, else 10. */
  function Limit(parsed: Option<int>): (limit: nat)
    ensures limit > 0
    ensures parsed.Some? && parsed.value > 0 ==> limit == parsed.value
    ensures !(parsed.Some? && parsed.value > 0) ==> limit == DefaultLimit
  {
    if parsed.Some? && parsed.value > 0 then parsed.value else DefaultLimit
  }

  /** `page` of the query: the parsed option when positive, else 1. */
  function Page(parsed: Option<int>): (page: nat)
    ensures page > 0
    ensures parsed.Some? && parsed.value > 0 ==> page == parsed.value
    ensures !(parsed.Some? && parsed.value > 0) ==> page == DefaultPage
  {
    if parsed.Some? && parsed.value > 0 then parsed.value else DefaultPage
  }

  /**
   * The sort: `sortByHandler(sortBy)` when `sortBy` is a non-empty string, else ascending
   * by username. The key order is the precedence `$sort` applies.
   */
  function SortParams(sortBy: Option<string>): (sort: seq<ChannelSort.Property>)
    ensures !Truthy(sortBy) ==> sort == [ChannelSort.Property("username", 1)]
    ensures Truthy(sortBy) ==>
      ChannelSort.Keys(sort) == ChannelSort.FirstOccurrences(ChannelSort.FieldList(Split(sortBy.value, ',')))
    ensures Truthy(sortBy) ==> forall f :: f in ChannelSort.Keys(sort) ==>
      f in ChannelSort.Fields(Split(sortBy.value, ','))
      && ChannelSort.Get(sort, f) == ChannelSort.LastDirection(Split(sortBy.value, ','), f)
    ensures forall i :: 0 <= i < |sort| ==> sort[i].value == 1 || sort[i].value == -1
  {
    if Truthy(sortBy) then
      ChannelSort.SortByHandlerSpec(sortBy.value);
      ChannelSort.SortParamsSigns(Split(sortBy.value, ','));
      ChannelSort.SortByHandler(sortBy.value)
    else [ChannelSort.Property("username", 1)]
  }

  lemma LastDirectionIsSign(segments: seq<string>)
    ensures forall f :: f in ChannelSort.Fields(segments) ==>
      ChannelSort.LastDirection(segments, f) == 1 || ChannelSort.LastDirection(segments, f) == -1
  {
    forall f | f in ChannelSort.Fields(segments)
      ensures ChannelSort.LastDirection(segments, f) == 1 || ChannelSort.LastDirection(segments, f) == -1
    {
      LastDirectionIsSignAt(segments, f);
    }
  }

  lemma {:induction false} LastDirectionIsSignAt(segments: seq<string>, f: string)
    requires f in ChannelSort.Fields(segments)
    ensures ChannelSort.LastDirection(segments, f) == 1 || ChannelSort.LastDirection(segments, f) == -1
    decreases |segments|
  {
    var last := segments[|segments| - 1];
    if ChannelSort.Field(last) != f {
      assert f in ChannelSort.Fields(segments[..|segments| - 1]) by {
        var s :| s in segments && ChannelSort.Field(s) == f;
        var k :| 0 <= k < |segments| && segments[k] == s;
        assert segments[..|segments| - 1][k] == s;
      }
      LastDirectionIsSignAt(segments[..|segments| - 1], f);
    }
  }

  /** `xs.filter(a => a !== 'others')`. */
  function WithoutOthers(xs: seq<string>): (r: seq<string>)
    ensures forall a :: a in r <==> a in xs && a != Others
  {
    if xs == [] then [] else (if xs[0] != Others then [xs[0]] else []) + WithoutOthers(xs[1..])
  }

  /** `.flatMap(activity => memberActivity[activity])`. */
  function ActivityIds(activities: seq<string>, memberActivity: string -> seq<string>): (ids: seq<string>)
    ensures forall id :: id in ids <==> exists a :: a in activities && id in memberActivity(a)
  {
    if activities == [] then []
    else
      var rest := ActivityIds(activities[1..], memberActivity);
      assert forall a :: a in activities <==> a == activities[0] || a in activities[1..];
      memberActivity(activities[0]) + rest
  }

  /**
   * The activity step: `others` excludes every id of the other activity types,
   * specific activities include their ids, and both together give the `$or` of the two.
   */
  function ActivityStage(composition: Option<seq<string>>, activityTypes: seq<string>,
                         memberActivity: string -> seq<string>): (stage: MatchStage)
    ensures composition.None? || composition.value == [] ==> stage == EmptyStage
    ensures stage.roles.None? && stage.joinedAtAtMost.None?
  {
    if composition.None? || composition.value == [] then EmptyStage
    else
      var comp := composition.value;
      var stage := if Others in comp
        then EmptyStage.(discordId := Some(NotIn(ActivityIds(WithoutOthers(activityTypes), memberActivity))))
        else EmptyStage;
      if exists a :: a in comp && a != Others then
        var specific := ActivityIds(WithoutOthers(comp), memberActivity);
        if stage.discordId.Some? then EmptyStage.(or := Some(ActivityEither(specific, stage.discordId.value.ids)))
        else stage.(discordId := Some(In(specific)))
      else stage
  }

  /** The whole `matchStage`: the activity step, then the name search, the roles and the date cap. */
  function BuildMatchStage(filter: Filter, activityTypes: seq<string>, memberActivity: string -> seq<string>,
                           latestActivityDate: Option<int>): (stage: MatchStage)
    ensures stage.discordId == ActivityStage(filter.activityComposition, activityTypes, memberActivity).discordId
    ensures stage.roles.Some? <==> filter.roles.Some? && filter.roles.value != []
    ensures stage.joinedAtAtMost == latestActivityDate
  {
    var stage := ActivityStage(filter.activityComposition, activityTypes, memberActivity);
    var stage := if Truthy(filter.ngu) then stage.(or := Some(NameSearch(filter.ngu.value))) else stage;
    var stage := if filter.roles.Some? && filter.roles.value != [] then stage.(roles := filter.roles) else stage;
    var stage := if latestActivityDate.Some? then stage.(joinedAtAtMost := latestActivityDate) else stage;
    stage
  }

  /**
   * How the activity composition shapes the filter: with `others` alone, members in any
   * other activity are excluded; with specific activities alone, only their members are
   * included; with both, a member passes either way.
   */
  lemma ActivityStageShape(comp: seq<string>, activityTypes: seq<string>, memberActivity: string -> seq<string>)
    requires comp != []
    ensures var stage := ActivityStage(Some(comp), activityTypes, memberActivity);
      var excluded := ActivityIds(WithoutOthers(activityTypes), memberActivity);
      var included := ActivityIds(WithoutOthers(comp), memberActivity);
      var specific := exists a :: a in comp && a != Others;
      && stage.roles.None? && stage.joinedAtAtMost.None?
      && (Others in comp && !specific ==> stage.discordId == Some(NotIn(excluded)) && stage.or.None?)
      && (Others !in comp ==> stage.discordId == Some(In(included)) && stage.or.None?)
      && (Others in comp && specific ==> stage.discordId.None? && stage.or == Some(ActivityEither(included, excluded)))
  {
    if Others !in comp {
      assert comp[0] in comp && comp[0] != Others;
    }
  }

  /**
   * Every member id an activity step excludes comes from an activity type other than
   * `others`, and every id it includes from a requested activity other than `others`.
   */
  lemma ActivityStageIds(comp: seq<string>, activityTypes: seq<string>, memberActivity: string -> seq<string>, id: string)
    ensures var stage := ActivityStage(Some(comp), activityTypes, memberActivity);
      && (stage.discordId.Some? && stage.discordId.value.NotIn? && id in stage.discordId.value.ids ==>
            exists a :: a in activityTypes && a != Others && id in memberActivity(a))
      && (stage.discordId.Some? && stage.discordId.value.In? && id in stage.discordId.value.ids ==>
            exists a :: a in comp && a != Others && id in memberActivity(a))
  {
  }

  /**
   * A name search replaces whatever `$or` the activity step built (the activity
   * condition on `discordId` of a single-branch step survives); roles add `$in` and the
   * latest activity date caps `joinedAt`.
   */
  lemma BuildMatchStageShape(filter: Filter, activityTypes: seq<string>, memberActivity: string -> seq<string>,
                             latestActivityDate: Option<int>)
    ensures var stage := BuildMatchStage(filter, activityTypes, memberActivity, latestActivityDate);
      var activity := ActivityStage(filter.activityComposition, activityTypes, memberActivity);
      && stage.discordId == activity.discordId
      && (Truthy(filter.ngu) ==> stage.or == Some(NameSearch(filter.ngu.value)))
      && (!Truthy(filter.ngu) ==> stage.or == activity.or)
      && (stage.roles.Some? <==> filter.roles.Some? && filter.roles.value != [])
      && (stage.roles.Some? ==> stage.roles == filter.roles)
      && stage.joinedAtAtMost == latestActivityDate
  {
  }

  /** `Math.ceil(totalResults / limit)`. */
  function TotalPages(totalResults: nat, limit: nat): (pages: nat)
    requires limit > 0
    ensures pages * limit >= totalResults
    ensures pages > 0 ==> (pages - 1) * limit < totalResults
  {
    (totalResults + limit - 1) / limit
  }

  /** `$skip: limit * (page - 1)` then `$limit: limit`, over the sorted matching members. */
  function PageOf(rows: seq<Member>, limit: nat, page: nat): (results: seq<Member>)
    requires limit > 0 && page > 0
    ensures |results| <= limit
    ensures limit * (page - 1) <= |rows| ==> |results| == if |rows| - limit * (page - 1) < limit then |rows| - limit * (page - 1) else limit
    ensures limit * (page - 1) <= |rows| ==> results == rows[limit * (page - 1)..][..|results|]
    ensures limit * (page - 1) > |rows| ==> results == []
  {
    var skip := limit * (page - 1);
    if skip > |rows| then [] else if skip + limit <= |rows| then rows[skip..skip + limit] else rows[skip..]
  }

  datatype QueryResult = QueryResult(results: seq<Member>, limit: nat, page: nat, totalPages: nat, totalResults: nat)

  /** The result returned when any step of the query throws. */
  const FailedQuery := QueryResult([], 10, 1, 0, 0)

  /**
   * `queryGuildMembers`. `db(stage, sort)` stands for the two database queries: the
   * matching members in sort order, or `None` if they throw.
   */
  function QueryGuildMembers(filter: Filter, options: Options, memberActivity: string -> seq<string>,
                             activityTypes: seq<string>, latestActivityDate: Option<int>,
                             db: (MatchStage, seq<ChannelSort.Property>) -> Option<seq<Member>>): (r: QueryResult)
    ensures var stage := BuildMatchStage(filter, activityTypes, memberActivity, latestActivityDate);
      match db(stage, SortParams(options.sortBy))
      case None => r == FailedQuery
      case Some(rows) =>
        && r.limit == Limit(options.limit) && r.page == Page(options.page)
        && r.totalResults == |rows|
        && |r.results| <= r.limit
        && r.totalPages * r.limit >= |rows| && (r.totalPages > 0 ==> (r.totalPages - 1) * r.limit < |rows|)
        && r.results == PageOf(rows, r.limit, r.page)
  {
    var limit := Limit(options.limit);
    var page := Page(options.page);
    var stage := BuildMatchStage(filter, activityTypes, memberActivity, latestActivityDate);
    match db(stage, SortParams(options.sortBy))
    case None => FailedQuery
    case Some(rows) => QueryResult(PageOf(rows, limit, page), limit, page, TotalPages(|rows|, limit), |rows|)
  }

  /**
   * The pages tile the matching members: member `i` is on page `i / limit + 1`, at
   * position `i % limit`, and that page is within `totalPages`.
   */
  lemma PagesCoverRows(rows: seq<Member>, limit: nat, i: nat)
    requires limit > 0 && i < |rows|
    ensures var page := i / limit + 1;
      && page <= TotalPages(|rows|, limit)
      && i % limit < |PageOf(rows, limit, page)|
      && PageOf(rows, limit, page)[i % limit] == rows[i]
  {
    var q, m := i / limit, i % limit;
    assert i == q * limit + m;
    assert limit * (q + 1 - 1) == q * limit;
    var total := |rows| + limit - 1;
    assert (q + 1) * limit <= total;
    DivAtLeast(total, limit, q + 1);
  }

  /** Multiplying by a positive factor keeps a strict order the other way round. */
  lemma MulMonotone(a: nat, b: nat, d: nat)
    requires d > 0 && a * d < b * d
    ensures a < b
  {
  }

  /** A numerator of at least `k` times the divisor gives a quotient of at least `k`. */
  lemma DivAtLeast(x: nat, d: nat, k: nat)
    requires d > 0 && k * d <= x
    ensures x / d >= k
  {
    var q := x / d;
    assert x == q * d + x % d && x % d < d;
    assert (q + 1) * d > k * d;
    MulMonotone(k, q + 1, d);
  }
}
