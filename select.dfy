/**
 * The query builder's SELECT statement (com.datastax.driver.core.querybuilder.Select):
 * the statement object and its clause mutators, the serialisation into a CQL string,
 * and the two builders that gather the selected columns before `from`.
 */
module QueryBuilderSelect {
  import opened Base

  // ---------------------------------------------------------------------------------------
  // Values held by a statement

  /** An element of a selection or of a GROUP BY list. */
  datatype Selector =
    | Name(name: string)                              // a column name given as a String
    | CName(cname: string)                            // Utils.CName
    | RawString(text: string)                         // Utils.RawString
    | FCall(fn: string, parameters: seq<Selector>)    // Utils.FCall
    | Alias(selected: Selector, alias: string)        // Utils.Alias
    | Term(handle: nat)                               // any other object the codec registry renders

  /** `count(*)`, the selection `countAll` installs. */
  const COUNT_ALL: seq<Selector> := [FCall("count", [RawString("*")])]

  /** A WHERE clause, an ORDER BY element and a USING option: built elsewhere, rendered elsewhere. */
  datatype Clause = Clause(handle: nat)
  datatype Ordering = Ordering(handle: nat)
  datatype Using = Using(handle: nat)

  datatype BindMarker = Anonymous | Named(marker: string)

  /** The value of a LIMIT or PER PARTITION LIMIT: a Java `int` or a bind marker. */
  datatype LimitSpec = IntLimit(n: int32) | MarkerLimit(bindMarker: BindMarker)

  /** Why a mutator threw. */
  datatype SelectError =
    | OrderByAlreadySet
    | EmptyOrderings
    | GroupByAlreadySet
    | LimitNotPositive
    | LimitAlreadySet
    | PerPartitionLimitNotPositive
    | PerPartitionLimitAlreadySet
    | PerPartitionLimitOnDistinct
    | ColumnsAlreadySelected
    | ImmutableColumnList

  datatype JavaException = IllegalArgumentException | IllegalStateException | UnsupportedOperationException

  /** The exception class each error is thrown as. */
  function ExceptionOf(e: SelectError): JavaException
  {
    match e
    case EmptyOrderings | LimitNotPositive | PerPartitionLimitNotPositive => IllegalArgumentException
    case ImmutableColumnList => UnsupportedOperationException
    case _ => IllegalStateException
  }

  /** The outcome of a mutator: it returned normally, or threw. */
  datatype Status = Done | Threw(error: SelectError)

  // ---------------------------------------------------------------------------------------
  // The statement as a value, and its mutators as functions on it

  datatype SelectState = SelectState(
    keyspace: Option<string>,
    table: string,
    isDistinct: bool,
    isJson: bool,
    columnNames: Option<seq<Selector>>,
    clauses: seq<Clause>,
    usings: seq<Using>,
    orderings: Option<seq<Ordering>>,
    groupByColumnNames: Option<seq<Selector>>,
    limit: Option<LimitSpec>,
    perPartitionLimit: Option<LimitSpec>,
    allowFiltering: bool,
    bypassCache: bool)

  /** A limit the int overload accepted is strictly positive. */
  predicate PositiveIfInt(l: Option<LimitSpec>)
  {
    l.Some? && l.value.IntLimit? ==> l.value.n > 0
  }

  /** What the mutators' guards keep true of every statement. */
  predicate WellFormed(st: SelectState)
  {
    && (st.orderings.Some? ==> st.orderings.value != [])
    && PositiveIfInt(st.limit)
    && PositiveIfInt(st.perPartitionLimit)
    && (st.isDistinct ==> st.perPartitionLimit.None?)
  }

  /** The statement the constructor creates: nothing but its selection and its table. */
  function Initial(keyspace: Option<string>, table: string, columnNames: Option<seq<Selector>>,
                   isDistinct: bool, isJson: bool): (st: SelectState)
    ensures WellFormed(st)
    ensures st.clauses == [] && st.usings == [] && st.orderings.None? && st.groupByColumnNames.None?
    ensures st.limit.None? && st.perPartitionLimit.None? && !st.allowFiltering && !st.bypassCache
  {
    SelectState(keyspace, table, isDistinct, isJson, columnNames, [], [], None, None, None, None, false, false)
  }

  /** `orderBy`: the duplicate check comes before the emptiness check. */
  function SetOrderBy(st: SelectState, orderings: seq<Ordering>): (r: Result<SelectState, SelectError>)
    ensures st.orderings.Some? ==> r == Failure(OrderByAlreadySet)
    ensures st.orderings.None? && orderings == [] ==> r == Failure(EmptyOrderings)
    ensures r.Success? <==> st.orderings.None? && orderings != []
    ensures r.Success? ==> r.value == st.(orderings := Some(orderings))
    ensures r.Success? && WellFormed(st) ==> WellFormed(r.value)
  {
    if st.orderings.Some? then Failure(OrderByAlreadySet)
    else if |orderings| == 0 then Failure(EmptyOrderings)
    else Success(st.(orderings := Some(orderings)))
  }

  function SetGroupBy(st: SelectState, columns: seq<Selector>): (r: Result<SelectState, SelectError>)
    ensures r.Failure? <==> st.groupByColumnNames.Some?
    ensures r.Failure? ==> r.error == GroupByAlreadySet
    ensures r.Success? ==> r.value == st.(groupByColumnNames := Some(columns))
    ensures r.Success? && WellFormed(st) ==> WellFormed(r.value)
  {
    if st.groupByColumnNames.Some? then Failure(GroupByAlreadySet)
    else Success(st.(groupByColumnNames := Some(columns)))
  }

  /** `limit(int)`: the argument check comes before the duplicate check. */
  function SetLimit(st: SelectState, limit: int32): (r: Result<SelectState, SelectError>)
    ensures limit <= 0 ==> r == Failure(LimitNotPositive)
    ensures limit > 0 && st.limit.Some? ==> r == Failure(LimitAlreadySet)
    ensures r.Success? <==> limit > 0 && st.limit.None?
    ensures r.Success? ==> r.value == st.(limit := Some(IntLimit(limit)))
    ensures r.Success? && WellFormed(st) ==> WellFormed(r.value)
  {
    if limit <= 0 then Failure(LimitNotPositive)
    else if st.limit.Some? then Failure(LimitAlreadySet)
    else Success(st.(limit := Some(IntLimit(limit))))
  }

  function SetLimitMarker(st: SelectState, marker: BindMarker): (r: Result<SelectState, SelectError>)
    ensures r.Failure? <==> st.limit.Some?
    ensures r.Failure? ==> r.error == LimitAlreadySet
    ensures r.Success? ==> r.value == st.(limit := Some(MarkerLimit(marker)))
    ensures r.Success? && WellFormed(st) ==> WellFormed(r.value)
  {
    if st.limit.Some? then Failure(LimitAlreadySet)
    else Success(st.(limit := Some(MarkerLimit(marker))))
  }

  /** `perPartitionLimit(int)`: argument, then duplicate, then DISTINCT. */
  function SetPerPartitionLimit(st: SelectState, limit: int32): (r: Result<SelectState, SelectError>)
    ensures limit <= 0 ==> r == Failure(PerPartitionLimitNotPositive)
    ensures limit > 0 && st.perPartitionLimit.Some? ==> r == Failure(PerPartitionLimitAlreadySet)
    ensures limit > 0 && st.perPartitionLimit.None? && st.isDistinct ==> r == Failure(PerPartitionLimitOnDistinct)
    ensures r.Success? <==> limit > 0 && st.perPartitionLimit.None? && !st.isDistinct
    ensures r.Success? ==> r.value == st.(perPartitionLimit := Some(IntLimit(limit)))
    ensures r.Success? && WellFormed(st) ==> WellFormed(r.value)
  {
    if limit <= 0 then Failure(PerPartitionLimitNotPositive)
    else if st.perPartitionLimit.Some? then Failure(PerPartitionLimitAlreadySet)
    else if st.isDistinct then Failure(PerPartitionLimitOnDistinct)
    else Success(st.(perPartitionLimit := Some(IntLimit(limit))))
  }

  function SetPerPartitionLimitMarker(st: SelectState, marker: BindMarker): (r: Result<SelectState, SelectError>)
    ensures st.perPartitionLimit.Some? ==> r == Failure(PerPartitionLimitAlreadySet)
    ensures st.perPartitionLimit.None? && st.isDistinct ==> r == Failure(PerPartitionLimitOnDistinct)
    ensures r.Success? <==> st.perPartitionLimit.None? && !st.isDistinct
    ensures r.Success? ==> r.value == st.(perPartitionLimit := Some(MarkerLimit(marker)))
    ensures r.Success? && WellFormed(st) ==> WellFormed(r.value)
  {
    if st.perPartitionLimit.Some? then Failure(PerPartitionLimitAlreadySet)
    else if st.isDistinct then Failure(PerPartitionLimitOnDistinct)
    else Success(st.(perPartitionLimit := Some(MarkerLimit(marker))))
  }

  function SetAllowFiltering(st: SelectState): (r: SelectState)
    ensures r.allowFiltering && r.(allowFiltering := st.allowFiltering) == st
    ensures WellFormed(st) ==> WellFormed(r)
  {
    st.(allowFiltering := true)
  }

  function SetBypassCache(st: SelectState): (r: SelectState)
    ensures r.bypassCache && r.(bypassCache := st.bypassCache) == st
    ensures WellFormed(st) ==> WellFormed(r)
  {
    st.(bypassCache := true)
  }

  /** `allowFiltering` and `bypassCache` only raise a flag, so repeating them changes nothing. */
  lemma FlagSettersAreIdempotent(st: SelectState)
    ensures SetAllowFiltering(SetAllowFiltering(st)) == SetAllowFiltering(st)
    ensures SetBypassCache(SetBypassCache(st)) == SetBypassCache(st)
    ensures SetAllowFiltering(SetBypassCache(st)) == SetBypassCache(SetAllowFiltering(st))
  {
  }

  /** Once a LIMIT is set, by either overload, every further `limit` throws IllegalStateException or IllegalArgumentException. */
  lemma LimitIsSetOnce(st: SelectState, first: LimitSpec, n: int32, marker: BindMarker)
    requires st.limit == Some(first)
    ensures SetLimitMarker(st, marker) == Failure(LimitAlreadySet)
    ensures SetLimit(st, n).Failure?
    ensures ExceptionOf(SetLimit(st, n).error) == if n <= 0 then IllegalArgumentException else IllegalStateException
  {
  }

  /** Same for PER PARTITION LIMIT, which a DISTINCT statement can never hold. */
  lemma PerPartitionLimitIsSetOnce(st: SelectState, n: int32, marker: BindMarker)
    requires st.perPartitionLimit.Some? || st.isDistinct
    ensures SetPerPartitionLimit(st, n).Failure? && SetPerPartitionLimitMarker(st, marker).Failure?
    ensures ExceptionOf(SetPerPartitionLimitMarker(st, marker).error) == IllegalStateException
  {
  }

  // ---------------------------------------------------------------------------------------
  // Rendering

  /**
   * The renderings this model does not define: `Utils.joinAndAppendNames`, `Utils.appendName`,
   * the rendering of one clause, ordering or option (with its bound values), and
   * `StringBuilder.append(Object)` on a limit.
   */
  datatype Renderer = Renderer(
    names: seq<Selector> -> string,
    name: string -> string,
    clause: Clause -> string,
    ordering: Ordering -> string,
    using: Using -> string,
    value: LimitSpec -> string)

  /** `Utils.joinAndAppend`: the rendered elements in order, `separator` between neighbours. */
  function Join(separator: string, parts: seq<string>): string
  {
    if |parts| == 0 then ""
    else if |parts| == 1 then parts[0]
    else parts[0] + separator + Join(separator, parts[1..])
  }

  lemma {:induction false} JoinSnoc(separator: string, parts: seq<string>, last: string)
    requires parts != []
    ensures Join(separator, parts + [last]) == Join(separator, parts) + separator + last
  {
    if |parts| == 1 {
      assert parts + [last] == [parts[0], last];
      assert (parts + [last])[1..] == [last];
    } else {
      JoinSnoc(separator, parts[1..], last);
      assert (parts + [last])[1..] == parts[1..] + [last];
    }
  }

  function RenderAll<T>(render: T -> string, xs: seq<T>): (ss: seq<string>)
    ensures |ss| == |xs| && forall i :: 0 <= i < |xs| ==> ss[i] == render(xs[i])
  {
    seq(|xs|, i requires 0 <= i < |xs| => render(xs[i]))
  }

  /** The fixed words of the query, in the order `buildQueryString` may emit them. */
  datatype Keyword =
    | SELECT | JSON | DISTINCT | STAR | FROM | DOT | WHERE | GROUP_BY | ORDER_BY
    | PER_PARTITION_LIMIT | LIMIT | ALLOW_FILTERING | BYPASS_CACHE | USING

  const ORDER: seq<Keyword> :=
    [SELECT, JSON, DISTINCT, STAR, FROM, DOT, WHERE, GROUP_BY, ORDER_BY,
     PER_PARTITION_LIMIT, LIMIT, ALLOW_FILTERING, BYPASS_CACHE, USING]

  function KeywordText(k: Keyword): string
  {
    match k
    case SELECT => "SELECT "
    case JSON => "JSON "
    case DISTINCT => "DISTINCT "
    case STAR => "*"
    case FROM => " FROM "
    case DOT => "."
    case WHERE => " WHERE "
    case GROUP_BY => " GROUP BY "
    case ORDER_BY => " ORDER BY "
    case PER_PARTITION_LIMIT => " PER PARTITION LIMIT "
    case LIMIT => " LIMIT "
    case ALLOW_FILTERING => " ALLOW FILTERING"
    case BYPASS_CACHE => " BYPASS CACHE"
    case USING => " USING "
  }

  /** Position of a keyword in ORDER. */
  function Rank(k: Keyword): nat
  {
    match k
    case SELECT => 0 case JSON => 1 case DISTINCT => 2 case STAR => 3 case FROM => 4 case DOT => 5
    case WHERE => 6 case GROUP_BY => 7 case ORDER_BY => 8 case PER_PARTITION_LIMIT => 9
    case LIMIT => 10 case ALLOW_FILTERING => 11 case BYPASS_CACHE => 12 case USING => 13
  }

  /** ORDER lists every keyword once, each at its rank. */
  lemma OrderAt()
    ensures |ORDER| == 14
    ensures ORDER[0] == SELECT && ORDER[1] == JSON && ORDER[2] == DISTINCT && ORDER[3] == STAR
    ensures ORDER[4] == FROM && ORDER[5] == DOT && ORDER[6] == WHERE && ORDER[7] == GROUP_BY
    ensures ORDER[8] == ORDER_BY && ORDER[9] == PER_PARTITION_LIMIT && ORDER[10] == LIMIT
    ensures ORDER[11] == ALLOW_FILTERING && ORDER[12] == BYPASS_CACHE && ORDER[13] == USING
  {
  }

  lemma OrderIsByRank()
    ensures |ORDER| == 14
    ensures forall i :: 0 <= i < |ORDER| ==> Rank(ORDER[i]) == i
    ensures forall k :: Rank(k) < |ORDER| && ORDER[Rank(k)] == k
  {
    OrderAt();
  }

  /** Whether the statement's fields call for `k`. */
  predicate Present(st: SelectState, k: Keyword)
  {
    match k
    case SELECT => true
    case JSON => st.isJson
    case DISTINCT => st.isDistinct
    case STAR => st.columnNames.None?
    case FROM => true
    case DOT => st.keyspace.Some?
    case WHERE => st.clauses != []
    case GROUP_BY => st.groupByColumnNames.Some?
    case ORDER_BY => st.orderings.Some?
    case PER_PARTITION_LIMIT => st.perPartitionLimit.Some?
    case LIMIT => st.limit.Some?
    case ALLOW_FILTERING => st.allowFiltering
    case BYPASS_CACHE => st.bypassCache
    case USING => st.usings != []
  }

  /** A piece of the query: one of the fixed words, or text produced by a renderer. */
  datatype Piece =
    | Kw(keyword: Keyword) | Names(selectors: seq<Selector>) | Identifier(identifier: string)
    | Clauses(clauses: seq<Clause>) | Orderings(orderings: seq<Ordering>) | Usings(usings: seq<Using>)
    | Value(limit: LimitSpec)

  function PieceText(p: Piece, r: Renderer): string
  {
    match p
    case Kw(k) => KeywordText(k)
    case Names(cs) => r.names(cs)
    case Identifier(n) => r.name(n)
    case Clauses(cs) => Join(" AND ", RenderAll(r.clause, cs))
    case Orderings(os) => Join(",", RenderAll(r.ordering, os))
    case Usings(us) => Join(" AND ", RenderAll(r.using, us))
    case Value(v) => r.value(v)
  }

  /** The text of a sequence of pieces: what a StringBuilder holds after appending them in turn. */
  function Flatten(ps: seq<Piece>, r: Renderer): string
  {
    if ps == [] then "" else PieceText(ps[0], r) + Flatten(ps[1..], r)
  }

  function Keywords(ps: seq<Piece>): seq<Keyword>
  {
    if ps == [] then []
    else (if ps[0].Kw? then [ps[0].keyword] else []) + Keywords(ps[1..])
  }

  lemma {:induction false} FlattenAppend(a: seq<Piece>, b: seq<Piece>, r: Renderer)
    ensures Flatten(a + b, r) == Flatten(a, r) + Flatten(b, r)
  {
    if a != [] {
      assert (a + b)[1..] == a[1..] + b;
      FlattenAppend(a[1..], b, r);
    } else {
      assert a + b == b;
    }
  }

  lemma {:induction false} KeywordsAppend(a: seq<Piece>, b: seq<Piece>)
    ensures Keywords(a + b) == Keywords(a) + Keywords(b)
  {
    if a != [] {
      assert (a + b)[1..] == a[1..] + b;
      KeywordsAppend(a[1..], b);
    } else {
      assert a + b == b;
    }
  }

  // What `buildQueryString` appends for each part of the query.

  function JsonSection(st: SelectState): seq<Piece>
  {
    if st.isJson then [Kw(JSON)] else []
  }

  function DistinctSection(st: SelectState): seq<Piece>
  {
    if st.isDistinct then [Kw(DISTINCT)] else []
  }

  function ColumnsSection(st: SelectState): seq<Piece>
  {
    if st.columnNames.None? then [Kw(STAR)] else [Names(st.columnNames.value)]
  }

  function QualifierSection(st: SelectState): seq<Piece>
  {
    if st.keyspace.Some? then [Identifier(st.keyspace.value), Kw(DOT)] else []
  }

  function TableSection(st: SelectState): seq<Piece>
  {
    QualifierSection(st) + [Identifier(st.table)]
  }

  function WhereSection(st: SelectState): seq<Piece>
  {
    if st.clauses != [] then [Kw(WHERE), Clauses(st.clauses)] else []
  }

  function GroupBySection(st: SelectState): seq<Piece>
  {
    if st.groupByColumnNames.Some? then [Kw(GROUP_BY), Names(st.groupByColumnNames.value)] else []
  }

  function OrderBySection(st: SelectState): seq<Piece>
  {
    if st.orderings.Some? then [Kw(ORDER_BY), Orderings(st.orderings.value)] else []
  }

  function PerPartitionLimitSection(st: SelectState): seq<Piece>
  {
    if st.perPartitionLimit.Some? then [Kw(PER_PARTITION_LIMIT), Value(st.perPartitionLimit.value)] else []
  }

  function LimitSection(st: SelectState): seq<Piece>
  {
    if st.limit.Some? then [Kw(LIMIT), Value(st.limit.value)] else []
  }

  function AllowFilteringSection(st: SelectState): seq<Piece>
  {
    if st.allowFiltering then [Kw(ALLOW_FILTERING)] else []
  }

  function BypassCacheSection(st: SelectState): seq<Piece>
  {
    if st.bypassCache then [Kw(BYPASS_CACHE)] else []
  }

  function UsingSection(st: SelectState): seq<Piece>
  {
    if st.usings != [] then [Kw(USING), Usings(st.usings)] else []
  }

  /** The part of the query that keyword `k` introduces. */
  function Section(st: SelectState, k: Keyword): seq<Piece>
  {
    match k
    case SELECT => [Kw(SELECT)]
    case JSON => JsonSection(st)
    case DISTINCT => DistinctSection(st)
    case STAR => ColumnsSection(st)
    case FROM => [Kw(FROM)]
    case DOT => TableSection(st)
    case WHERE => WhereSection(st)
    case GROUP_BY => GroupBySection(st)
    case ORDER_BY => OrderBySection(st)
    case PER_PARTITION_LIMIT => PerPartitionLimitSection(st)
    case LIMIT => LimitSection(st)
    case ALLOW_FILTERING => AllowFilteringSection(st)
    case BYPASS_CACHE => BypassCacheSection(st)
    case USING => UsingSection(st)
  }

  /** Keyword `k` heads its own section exactly when the fields call for it, and no other keyword appears there. */
  lemma SectionKeywords(st: SelectState, k: Keyword)
    ensures Keywords(Section(st, k)) == if Present(st, k) then [k] else []
  {
    var ps := Section(st, k);
    if |ps| == 2 {
      KeywordsAppend([ps[0]], [ps[1]]);
      assert ps == [ps[0]] + [ps[1]];
    } else if k == DOT {
      KeywordsAppend(QualifierSection(st), [Identifier(st.table)]);
      if st.keyspace.Some? {
        KeywordsAppend([Identifier(st.keyspace.value)], [Kw(DOT)]);
        assert QualifierSection(st) == [Identifier(st.keyspace.value)] + [Kw(DOT)];
      }
    }
  }

  /** The sections of the first `n` keywords of ORDER, one after the other. */
  function Layout(st: SelectState, n: nat): seq<Piece>
    requires n <= |ORDER|
  {
    if n == 0 then [] else Layout(st, n - 1) + Section(st, ORDER[n - 1])
  }

  /** The first `n` keywords of ORDER that the statement calls for, in the order of ORDER. */
  function PresentKeywords(st: SelectState, n: nat): seq<Keyword>
    requires n <= |ORDER|
  {
    if n == 0 then [] else PresentKeywords(st, n - 1) + (if Present(st, ORDER[n - 1]) then [ORDER[n - 1]] else [])
  }

  /** The query's pieces; its text is `Flatten` of them. */
  function QueryPieces(st: SelectState): seq<Piece>
  {
    Layout(st, |ORDER|)
  }

  lemma {:induction false} LayoutKeywords(st: SelectState, n: nat)
    requires n <= |ORDER|
    ensures Keywords(Layout(st, n)) == PresentKeywords(st, n)
  {
    if n > 0 {
      LayoutKeywords(st, n - 1);
      SectionKeywords(st, ORDER[n - 1]);
      KeywordsAppend(Layout(st, n - 1), Section(st, ORDER[n - 1]));
    }
  }

  predicate Ascending(ks: seq<Keyword>)
  {
    forall i, j :: 0 <= i < j < |ks| ==> Rank(ks[i]) < Rank(ks[j])
  }

  lemma {:induction false} PresentKeywordsAscend(st: SelectState, n: nat)
    requires n <= |ORDER|
    ensures Ascending(PresentKeywords(st, n))
    ensures forall k :: k in PresentKeywords(st, n) <==> Rank(k) < n && Present(st, k)
  {
    OrderIsByRank();
    if n > 0 {
      PresentKeywordsAscend(st, n - 1);
    }
  }

  /**
   * The query follows one fixed order, SELECT … USING: every keyword appears at most
   * once, exactly when the statement's fields call for it, and in ascending rank.
   */
  lemma QueryFollowsFixedOrder(st: SelectState)
    ensures Ascending(Keywords(QueryPieces(st)))
    ensures forall k :: k in Keywords(QueryPieces(st)) <==> Present(st, k)
  {
    LayoutKeywords(st, |ORDER|);
    PresentKeywordsAscend(st, |ORDER|);
    OrderIsByRank();
  }

  /** The sections written out one after the other, as `buildQueryString` appends them. */
  function SectionsInOrder(st: SelectState): seq<Piece>
  {
    [Kw(SELECT)] + JsonSection(st) + DistinctSection(st) + ColumnsSection(st) + [Kw(FROM)]
    + TableSection(st) + WhereSection(st) + GroupBySection(st) + OrderBySection(st)
    + PerPartitionLimitSection(st) + LimitSection(st) + AllowFilteringSection(st)
    + BypassCacheSection(st) + UsingSection(st)
  }

  /** `QueryPieces` is the sections of the statement one after the other, SELECT first. */
  lemma QueryPiecesBySection(st: SelectState)
    ensures QueryPieces(st) == SectionsInOrder(st)
  {
    OrderAt();
    assert Layout(st, 1) == [Kw(SELECT)];
    assert Layout(st, 2) == [Kw(SELECT)] + JsonSection(st);
    assert Layout(st, 3) == [Kw(SELECT)] + JsonSection(st) + DistinctSection(st);
    assert Layout(st, 4) == [Kw(SELECT)] + JsonSection(st) + DistinctSection(st) + ColumnsSection(st);
    assert Layout(st, 5) == [Kw(SELECT)] + JsonSection(st) + DistinctSection(st) + ColumnsSection(st) + [Kw(FROM)];
    assert Layout(st, 6) == [Kw(SELECT)] + JsonSection(st) + DistinctSection(st) + ColumnsSection(st) + [Kw(FROM)] + TableSection(st);
    assert Layout(st, 7) == [Kw(SELECT)] + JsonSection(st) + DistinctSection(st) + ColumnsSection(st) + [Kw(FROM)] + TableSection(st) + WhereSection(st);
    assert Layout(st, 8) == [Kw(SELECT)] + JsonSection(st) + DistinctSection(st) + ColumnsSection(st) + [Kw(FROM)] + TableSection(st) + WhereSection(st) + GroupBySection(st);
    assert Layout(st, 9) == [Kw(SELECT)] + JsonSection(st) + DistinctSection(st) + ColumnsSection(st) + [Kw(FROM)] + TableSection(st) + WhereSection(st) + GroupBySection(st) + OrderBySection(st);
    assert Layout(st, 10) == [Kw(SELECT)] + JsonSection(st) + DistinctSection(st) + ColumnsSection(st) + [Kw(FROM)] + TableSection(st) + WhereSection(st) + GroupBySection(st) + OrderBySection(st) + PerPartitionLimitSection(st);
    assert Layout(st, 11) == [Kw(SELECT)] + JsonSection(st) + DistinctSection(st) + ColumnsSection(st) + [Kw(FROM)] + TableSection(st) + WhereSection(st) + GroupBySection(st) + OrderBySection(st) + PerPartitionLimitSection(st) + LimitSection(st);
    assert Layout(st, 12) == [Kw(SELECT)] + JsonSection(st) + DistinctSection(st) + ColumnsSection(st) + [Kw(FROM)] + TableSection(st) + WhereSection(st) + GroupBySection(st) + OrderBySection(st) + PerPartitionLimitSection(st) + LimitSection(st) + AllowFilteringSection(st);
    assert Layout(st, 13) == [Kw(SELECT)] + JsonSection(st) + DistinctSection(st) + ColumnsSection(st) + [Kw(FROM)] + TableSection(st) + WhereSection(st) + GroupBySection(st) + OrderBySection(st) + PerPartitionLimitSection(st) + LimitSection(st) + AllowFilteringSection(st) + BypassCacheSection(st);
    assert Layout(st, 14) == [Kw(SELECT)] + JsonSection(st) + DistinctSection(st) + ColumnsSection(st) + [Kw(FROM)] + TableSection(st) + WhereSection(st) + GroupBySection(st) + OrderBySection(st) + PerPartitionLimitSection(st) + LimitSection(st) + AllowFilteringSection(st) + BypassCacheSection(st) + UsingSection(st);
  }

  /**
   * A clause added to the WHERE part is rendered last, after " AND " when clauses were already
   * there: the text keeps the clauses in the order they were added.
   */
  lemma WhereAppendsInOrder(clauses: seq<Clause>, r: Renderer, c: Clause)
    ensures PieceText(Clauses(clauses + [c]), r)
            == if clauses == [] then r.clause(c) else PieceText(Clauses(clauses), r) + " AND " + r.clause(c)
  {
    assert RenderAll(r.clause, clauses + [c]) == RenderAll(r.clause, clauses) + [r.clause(c)];
    if clauses != [] {
      JoinSnoc(" AND ", RenderAll(r.clause, clauses), r.clause(c));
    }
  }

  // ---------------------------------------------------------------------------------------
  // The statement objects

  /** The WHERE part of a statement: clauses in the order they were added. */
  class Where {
    var clauses: seq<Clause>

    constructor ()
      ensures clauses == []
    {
      clauses := [];
    }

    /** `Where.and` */
    method And(clause: Clause)
      modifies this
      ensures clauses == old(clauses) + [clause]
    {
      clauses := clauses + [clause];
    }
  }

  /** The USING options of a statement. */
  class Options {
    var usings: seq<Using>

    constructor ()
      ensures usings == []
    {
      usings := [];
    }

    /** `Options.and` */
    method And(using: Using)
      modifies this
      ensures usings == old(usings) + [using]
    {
      usings := usings + [using];
    }
  }

  /** The state after a mutator and what it reported: a throwing mutator leaves the state as it was. */
  function Outcome<S>(step: Result<S, SelectError>, before: S): (S, Status)
  {
    match step
    case Success(after) => (after, Done)
    case Failure(e) => (before, Threw(e))
  }

  class Select {
    const keyspace: Option<string>
    const table: string
    const isDistinct: bool
    const isJson: bool
    const columnNames: Option<seq<Selector>>
    const where: Where
    const usings: Options
    var orderings: Option<seq<Ordering>>
    var groupByColumnNames: Option<seq<Selector>>
    var limit: Option<LimitSpec>
    var perPartitionLimit: Option<LimitSpec>
    var allowFiltering: bool
    var bypassCache: bool

    function State(): SelectState
      reads this, where, usings
    {
      SelectState(keyspace, table, isDistinct, isJson, columnNames, where.clauses, usings.usings,
                  orderings, groupByColumnNames, limit, perPartitionLimit, allowFiltering, bypassCache)
    }

    constructor (keyspace: Option<string>, table: string, columnNames: Option<seq<Selector>>,
                 isDistinct: bool, isJson: bool)
      ensures State() == Initial(keyspace, table, columnNames, isDistinct, isJson)
      ensures fresh(where) && fresh(usings)
    {
      this.keyspace := keyspace;
      this.table := table;
      this.columnNames := columnNames;
      this.isDistinct := isDistinct;
      this.isJson := isJson;
      this.where := new Where();
      this.usings := new Options();
      orderings := None;
      groupByColumnNames := None;
      limit := None;
      perPartitionLimit := None;
      allowFiltering := false;
      bypassCache := false;
    }

    /** `where(clause)` */
    method AddWhere(clause: Clause)
      modifies where
      ensures State() == old(State()).(clauses := old(State()).clauses + [clause])
    {
      where.And(clause);
    }

    /** `using(using)` */
    method AddUsing(using: Using)
      modifies usings
      ensures State() == old(State()).(usings := old(State()).usings + [using])
    {
      usings.And(using);
    }

    method OrderBy(orderings: seq<Ordering>) returns (status: Status)
      modifies this
      ensures (State(), status) == Outcome(SetOrderBy(old(State()), orderings), old(State()))
    {
      if this.orderings.Some? {
        return Threw(OrderByAlreadySet);
      }
      if |orderings| == 0 {
        return Threw(EmptyOrderings);
      }
      this.orderings := Some(orderings);
      return Done;
    }

    method GroupBy(columns: seq<Selector>) returns (status: Status)
      modifies this
      ensures (State(), status) == Outcome(SetGroupBy(old(State()), columns), old(State()))
    {
      if groupByColumnNames.Some? {
        return Threw(GroupByAlreadySet);
      }
      groupByColumnNames := Some(columns);
      return Done;
    }

    method Limit(limit: int32) returns (status: Status)
      modifies this
      ensures (State(), status) == Outcome(SetLimit(old(State()), limit), old(State()))
    {
      if limit <= 0 {
        return Threw(LimitNotPositive);
      }
      if this.limit.Some? {
        return Threw(LimitAlreadySet);
      }
      this.limit := Some(IntLimit(limit));
      return Done;
    }

    method LimitMarker(marker: BindMarker) returns (status: Status)
      modifies this
      ensures (State(), status) == Outcome(SetLimitMarker(old(State()), marker), old(State()))
    {
      if limit.Some? {
        return Threw(LimitAlreadySet);
      }
      limit := Some(MarkerLimit(marker));
      return Done;
    }

    method PerPartitionLimit(perPartitionLimit: int32) returns (status: Status)
      modifies this
      ensures (State(), status) == Outcome(SetPerPartitionLimit(old(State()), perPartitionLimit), old(State()))
    {
      if perPartitionLimit <= 0 {
        return Threw(PerPartitionLimitNotPositive);
      }
      if this.perPartitionLimit.Some? {
        return Threw(PerPartitionLimitAlreadySet);
      }
      if isDistinct {
        return Threw(PerPartitionLimitOnDistinct);
      }
      this.perPartitionLimit := Some(IntLimit(perPartitionLimit));
      return Done;
    }

    method PerPartitionLimitMarker(marker: BindMarker) returns (status: Status)
      modifies this
      ensures (State(), status) == Outcome(SetPerPartitionLimitMarker(old(State()), marker), old(State()))
    {
      if perPartitionLimit.Some? {
        return Threw(PerPartitionLimitAlreadySet);
      }
      if isDistinct {
        return Threw(PerPartitionLimitOnDistinct);
      }
      perPartitionLimit := Some(MarkerLimit(marker));
      return Done;
    }

    method AllowFiltering()
      modifies this
      ensures State() == SetAllowFiltering(old(State()))
    {
      allowFiltering := true;
    }

    method BypassCache()
      modifies this
      ensures State() == SetBypassCache(old(State()))
    {
      bypassCache := true;
    }

    // `buildQueryString`, in the groups of appends it makes. The StringBuilder is modelled as
    // the sequence of pieces appended to it; the query text is `Flatten` of that sequence.

    /** "JSON " and "DISTINCT " when set, then the column list or '*'. */
    method AppendSelection(builder: seq<Piece>) returns (result: seq<Piece>)
      ensures result == builder + JsonSection(State()) + DistinctSection(State()) + ColumnsSection(State())
    {
      result := builder;
      if isJson {
        result := result + [Kw(JSON)];
      }
      if isDistinct {
        result := result + [Kw(DISTINCT)];
      }
      if columnNames.None? {
        result := result + [Kw(STAR)];
      } else {
        result := result + [Names(columnNames.value)];
      }
    }

    /** The table, qualified by the keyspace when there is one. */
    method AppendTable(builder: seq<Piece>) returns (result: seq<Piece>)
      ensures result == builder + TableSection(State())
    {
      result := builder;
      if keyspace.Some? {
        result := result + [Identifier(keyspace.value), Kw(DOT)];
      }
      result := result + [Identifier(table)];
    }

    /** WHERE when a clause was added, then GROUP BY and ORDER BY when set. */
    method AppendClauses(builder: seq<Piece>) returns (result: seq<Piece>)
      ensures result == builder + WhereSection(State()) + GroupBySection(State()) + OrderBySection(State())
    {
      result := builder;
      if where.clauses != [] {
        result := result + [Kw(WHERE), Clauses(where.clauses)];
      }
      if groupByColumnNames.Some? {
        result := result + [Kw(GROUP_BY), Names(groupByColumnNames.value)];
      }
      if orderings.Some? {
        result := result + [Kw(ORDER_BY), Orderings(orderings.value)];
      }
    }

    /** PER PARTITION LIMIT, then LIMIT, each when set. */
    method AppendLimits(builder: seq<Piece>) returns (result: seq<Piece>)
      ensures result == builder + PerPartitionLimitSection(State()) + LimitSection(State())
    {
      result := builder;
      if perPartitionLimit.Some? {
        result := result + [Kw(PER_PARTITION_LIMIT), Value(perPartitionLimit.value)];
      }
      if limit.Some? {
        result := result + [Kw(LIMIT), Value(limit.value)];
      }
    }

    /** ALLOW FILTERING and BYPASS CACHE when raised, then USING when an option was added. */
    method AppendOptions(builder: seq<Piece>) returns (result: seq<Piece>)
      ensures result == builder + AllowFilteringSection(State()) + BypassCacheSection(State()) + UsingSection(State())
    {
      result := builder;
      if allowFiltering {
        result := result + [Kw(ALLOW_FILTERING)];
      }
      if bypassCache {
        result := result + [Kw(BYPASS_CACHE)];
      }
      if usings.usings != [] {
        result := result + [Kw(USING), Usings(usings.usings)];
      }
    }

    /** `buildQueryString`: the query text, laid out in the one fixed order of `QueryPieces`. */
    method BuildQueryString(r: Renderer) returns (query: string)
      ensures query == Flatten(QueryPieces(State()), r)
    {
      var builder: seq<Piece> := [Kw(SELECT)];
      builder := AppendSelection(builder);
      builder := builder + [Kw(FROM)];
      builder := AppendTable(builder);
      builder := AppendClauses(builder);
      builder := AppendLimits(builder);
      builder := AppendOptions(builder);
      assert builder == SectionsInOrder(State());
      QueryPiecesBySection(State());
      query := Flatten(builder, r);
    }
  }

  // ---------------------------------------------------------------------------------------
  // Gathering the selection before `from`

  /** `Select.Builder`: the selection and the two flags, until `from` names the table. */
  class Builder {
    var columnNames: Option<seq<Selector>>
    var isDistinct: bool
    var isJson: bool

    /** `Builder()` (columnNames `None`) and `Builder(columnNames)`. */
    constructor (columnNames: Option<seq<Selector>>)
      ensures this.columnNames == columnNames && !isDistinct && !isJson
    {
      this.columnNames := columnNames;
      isDistinct := false;
      isJson := false;
    }

    method Distinct()
      modifies this
      ensures isDistinct && columnNames == old(columnNames) && isJson == old(isJson)
    {
      isDistinct := true;
    }

    method Json()
      modifies this
      ensures isJson && columnNames == old(columnNames) && isDistinct == old(isDistinct)
    {
      isJson := true;
    }

    /** `from(keyspace, table)`, and `from(table)` with keyspace `None`: a new statement over this selection. */
    method From(keyspace: Option<string>, table: string) returns (select: Select)
      ensures fresh(select)
      ensures select.State() == Initial(keyspace, table, columnNames, isDistinct, isJson)
    {
      select := new Select(keyspace, table, columnNames, isDistinct, isJson);
    }
  }

  /**
   * What a `SelectionOrAlias` holds of its selection: the column list (`None` until the first
   * column, and the immutable `COUNT_ALL` list once `fixedList`), and the one selection still
   * waiting for a possible alias.
   */
  datatype Selection = Selection(columnNames: Option<seq<Selector>>, fixedList: bool, previous: Option<Selector>)

  /** Every selection made so far, in order, the pending one last. */
  function Selected(s: Selection): seq<Selector>
  {
    Columns(s) + (if s.previous.Some? then [s.previous.value] else [])
  }

  function Columns(s: Selection): seq<Selector>
  {
    if s.columnNames.Some? then s.columnNames.value else []
  }

  /** What the methods keep true: a list exists only once it holds something, and only COUNT_ALL is fixed. */
  predicate SelectionInvariant(s: Selection)
  {
    && (s.columnNames.Some? ==> s.columnNames.value != [])
    && (s.fixedList ==> s.columnNames == Some(COUNT_ALL))
  }

  /** A new `SelectionOrAlias`: nothing selected. */
  const NoSelection: Selection := Selection(None, false, None)

  /** `addName`: append to the column list, creating it on first use; COUNT_ALL cannot grow. */
  function AddedName(s: Selection, name: Selector): (r: Result<Selection, SelectError>)
    ensures r.Failure? <==> s.fixedList
    ensures r.Failure? ==> r.error == ImmutableColumnList
    ensures r.Success? ==> r.value == s.(columnNames := Some(Columns(s) + [name]))
    ensures r.Success? && SelectionInvariant(s) ==> SelectionInvariant(r.value)
  {
    if s.fixedList then Failure(ImmutableColumnList)
    else Success(s.(columnNames := Some(Columns(s) + [name])))
  }

  /** `queueName`: the pending selection, if any, moves to the column list and `name` takes its place. */
  function QueuedName(s: Selection, name: Selector): (r: Result<Selection, SelectError>)
    ensures r.Failure? <==> s.previous.Some? && s.fixedList
    ensures r.Failure? ==> r.error == ImmutableColumnList
    ensures r.Success? ==> Selected(r.value) == Selected(s) + [name] && r.value.previous == Some(name)
    ensures r.Success? ==> r.value.fixedList == s.fixedList
    ensures r.Success? && SelectionInvariant(s) ==> SelectionInvariant(r.value)
  {
    if s.previous.Some? then
      var t :- AddedName(s, s.previous.value);
      Success(t.(previous := Some(name)))
    else
      Success(s.(previous := Some(name)))
  }

  /**
   * `as(alias)`: the pending selection, wrapped in the alias, moves to the column list. The
   * source asserts that a selection is pending, and the `requires` states that intent. A
   * second `as` on the same object finds the slot already cleared, so the assertion fails
   * when assertions are enabled; this case is not modelled.
   */
  function Aliased(s: Selection, alias: string): (r: Result<Selection, SelectError>)
    requires s.previous.Some?
    ensures r.Failure? <==> s.fixedList
    ensures r.Success? ==> r.value.previous.None?
    ensures r.Success? ==> Columns(r.value) == Columns(s) + [Alias(s.previous.value, alias)]
    ensures r.Success? ==> Selected(r.value) == Selected(s)[..|Selected(s)| - 1] + [Alias(s.previous.value, alias)]
    ensures r.Success? && SelectionInvariant(s) ==> SelectionInvariant(r.value)
  {
    AddedName(s.(previous := None), Alias(s.previous.value, alias))
  }

  /** `all()`: allowed only while nothing is selected or pending. */
  function AllSelected(s: Selection): (r: Result<Selection, SelectError>)
    ensures r.Failure? <==> s.columnNames.Some? || s.previous.Some?
    ensures r.Failure? ==> r.error == ColumnsAlreadySelected
    ensures r.Success? ==> r.value == s
  {
    if s.columnNames.Some? then Failure(ColumnsAlreadySelected)
    else if s.previous.Some? then Failure(ColumnsAlreadySelected)
    else Success(s)
  }

  /** `countAll()`: the same guard, then the selection becomes `count(*)`, for good. */
  function CountedAll(s: Selection): (r: Result<Selection, SelectError>)
    ensures r.Failure? <==> s.columnNames.Some? || s.previous.Some?
    ensures r.Failure? ==> r.error == ColumnsAlreadySelected
    ensures r.Success? ==> r.value == Selection(Some(COUNT_ALL), true, None) && Selected(r.value) == COUNT_ALL
    ensures r.Success? ==> SelectionInvariant(r.value)
  {
    if s.columnNames.Some? then Failure(ColumnsAlreadySelected)
    else if s.previous.Some? then Failure(ColumnsAlreadySelected)
    else Success(Selection(Some(COUNT_ALL), true, None))
  }

  /** What `from` does first: the pending selection, if any, moves to the column list. */
  function Flushed(s: Selection): (r: Result<Selection, SelectError>)
    ensures r.Failure? <==> s.previous.Some? && s.fixedList
    ensures r.Success? ==> r.value.previous.None? && Columns(r.value) == Selected(s)
    ensures r.Success? && SelectionInvariant(s) ==> SelectionInvariant(r.value)
  {
    if s.previous.Some? then
      var t :- AddedName(s, s.previous.value);
      Success(t.(previous := None))
    else
      Success(s)
  }

  /** Under the invariant, `all()` and `countAll()` throw exactly when something is selected or pending. */
  lemma SelectAllRejectsAnySelection(s: Selection)
    requires SelectionInvariant(s)
    ensures AllSelected(s).Failure? <==> Selected(s) != []
    ensures CountedAll(s).Failure? <==> Selected(s) != []
  {
  }

  /** Selecting `names` one after the other, as chained `column(…)` calls do. */
  function QueueAll(s: Selection, names: seq<Selector>): Result<Selection, SelectError>
    decreases |names|
  {
    if names == [] then Success(s)
    else
      var t :- QueuedName(s, names[0]);
      QueueAll(t, names[1..])
  }

  /** Chained selections reach the column list in the order they were made, the last one at `from`. */
  lemma {:induction false} QueuedInOrder(s: Selection, names: seq<Selector>)
    requires !s.fixedList
    ensures QueueAll(s, names).Success?
    ensures Selected(QueueAll(s, names).value) == Selected(s) + names
    ensures Flushed(QueueAll(s, names).value).Success?
    ensures Columns(Flushed(QueueAll(s, names).value).value) == Selected(s) + names
    decreases |names|
  {
    if names != [] {
      var t := QueuedName(s, names[0]).value;
      QueuedInOrder(t, names[1..]);
      assert Selected(t) + names[1..] == Selected(s) + names;
    }
  }

  /** `Select.SelectionOrAlias`, with the fields it inherits from `Selection` and `Builder`. */
  class SelectionOrAlias {
    var columnNames: Option<seq<Selector>>
    var fixedList: bool
    var previousSelection: Option<Selector>
    var isDistinct: bool
    var isJson: bool

    function Value(): Selection
      reads this
    {
      Selection(columnNames, fixedList, previousSelection)
    }

    constructor ()
      ensures Value() == NoSelection && !isDistinct && !isJson
    {
      columnNames := None;
      fixedList := false;
      previousSelection := None;
      isDistinct := false;
      isJson := false;
    }

    method Distinct()
      modifies this
      ensures isDistinct && Value() == old(Value()) && isJson == old(isJson)
    {
      isDistinct := true;
    }

    method Json()
      modifies this
      ensures isJson && Value() == old(Value()) && isDistinct == old(isDistinct)
    {
      isJson := true;
    }

    method AddName(name: Selector) returns (status: Status)
      modifies this
      ensures (Value(), status) == Outcome(AddedName(old(Value()), name), old(Value()))
      ensures isDistinct == old(isDistinct) && isJson == old(isJson)
    {
      if fixedList {
        return Threw(ImmutableColumnList);
      }
      if columnNames.None? {
        columnNames := Some([]);
      }
      columnNames := Some(columnNames.value + [name]);
      return Done;
    }

    method QueueName(name: Selector) returns (status: Status)
      modifies this
      ensures (Value(), status) == Outcome(QueuedName(old(Value()), name), old(Value()))
      ensures isDistinct == old(isDistinct) && isJson == old(isJson)
    {
      if previousSelection.Some? {
        status := AddName(previousSelection.value);
        if status.Threw? {
          return;
        }
      }
      previousSelection := Some(name);
      return Done;
    }

    method Column(name: string) returns (status: Status)
      modifies this
      ensures (Value(), status) == Outcome(QueuedName(old(Value()), Name(name)), old(Value()))
      ensures isDistinct == old(isDistinct) && isJson == old(isJson)
    {
      status := QueueName(Name(name));
    }

    method WriteTime(name: string) returns (status: Status)
      modifies this
      ensures (Value(), status) == Outcome(QueuedName(old(Value()), FCall("writetime", [CName(name)])), old(Value()))
      ensures isDistinct == old(isDistinct) && isJson == old(isJson)
    {
      status := QueueName(FCall("writetime", [CName(name)]));
    }

    method Ttl(name: string) returns (status: Status)
      modifies this
      ensures (Value(), status) == Outcome(QueuedName(old(Value()), FCall("ttl", [CName(name)])), old(Value()))
      ensures isDistinct == old(isDistinct) && isJson == old(isJson)
    {
      status := QueueName(FCall("ttl", [CName(name)]));
    }

    method FunctionCall(name: string, parameters: seq<Selector>) returns (status: Status)
      modifies this
      ensures (Value(), status) == Outcome(QueuedName(old(Value()), FCall(name, parameters)), old(Value()))
      ensures isDistinct == old(isDistinct) && isJson == old(isJson)
    {
      status := QueueName(FCall(name, parameters));
    }

    /** The pending slot is cleared before the name is added, so it stays cleared when adding throws. */
    method As(alias: string) returns (status: Status)
      requires previousSelection.Some?
      modifies this
      ensures (Value(), status) == Outcome(Aliased(old(Value()), alias), old(Value()).(previous := None))
      ensures isDistinct == old(isDistinct) && isJson == old(isJson)
    {
      var a := Alias(previousSelection.value, alias);
      previousSelection := None;
      status := AddName(a);
    }

    method All() returns (status: Status)
      ensures status == Outcome(AllSelected(Value()), Value()).1
    {
      if columnNames.Some? {
        return Threw(ColumnsAlreadySelected);
      }
      if previousSelection.Some? {
        return Threw(ColumnsAlreadySelected);
      }
      return Done;
    }

    method CountAll() returns (status: Status)
      modifies this
      ensures (Value(), status) == Outcome(CountedAll(old(Value())), old(Value()))
      ensures isDistinct == old(isDistinct) && isJson == old(isJson)
    {
      if columnNames.Some? {
        return Threw(ColumnsAlreadySelected);
      }
      if previousSelection.Some? {
        return Threw(ColumnsAlreadySelected);
      }
      columnNames := Some(COUNT_ALL);
      fixedList := true;
      return Done;
    }

    /** `from(keyspace, table)`, and `from(table)` with keyspace `None`. */
    method From(keyspace: Option<string>, table: string) returns (status: Status, select: Option<Select>)
      modifies this
      ensures (Value(), status) == Outcome(Flushed(old(Value())), old(Value()))
      ensures status.Done? <==> select.Some?
      ensures select.Some? ==> fresh(select.value)
      ensures select.Some? ==> select.value.State() == Initial(keyspace, table, columnNames, isDistinct, isJson)
    {
      if previousSelection.Some? {
        status := AddName(previousSelection.value);
        if status.Threw? {
          return status, None;
        }
      }
      previousSelection := None;
      var s := new Select(keyspace, table, columnNames, isDistinct, isJson);
      return Done, Some(s);
    }
  }
}
