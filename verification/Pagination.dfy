/**
 Keyset pagination: pages of limit rows in descending token order, chained by a cursor that is
 the decimal form of the last token. The table maps token ids to rows; ilike is the database's
 pattern match, of which nothing is assumed.
 */
module Pagination {
  import opened Domain

  type Table = map<nat, Certificate>

  const DEFAULT_LIMIT := 20
  const MAX_LIMIT := 100

  datatype ListError = BadCursor | BadRow

  datatype Page = Page(items: seq<Certificate>, nextCursor: string, hasMore: bool)

  datatype ListParams = ListParams(owner: string, query: string, cursor: string, limit: int)

  // ---- Parsing ----

  function Digit(n: nat): char
    requires n < 10
  {
    '0' + n as char
  }

  function Decimal(n: nat): (s: string)
    ensures s != ""
  {
    if n < 10 then [Digit(n)] else Decimal(n / 10) + [Digit(n % 10)]
  }

  function ParseNumeric(s: string): Option<nat> {
    if s == "" then None
    else
      var c := s[|s| - 1];
      if !('0' <= c <= '9') then None
      else if |s| == 1 then Some((c - '0') as nat)
      else
        var high := ParseNumeric(s[..|s| - 1]);
        if high.None? then None else Some(10 * high.value + (c - '0') as nat)
  }

  lemma {:induction false} CursorRoundTrip(n: nat)
    ensures ParseNumeric(Decimal(n)) == Some(n)
  {
    if n >= 10 {
      CursorRoundTrip(n / 10);
      var s := Decimal(n);
      assert s[..|s| - 1] == Decimal(n / 10);
    }
  }

  /** No cursor, a token, or an error. */
  function ParseCursor(s: string): Result<Option<nat>, ListError> {
    if s == "" then Ok(None)
    else
      var n := ParseNumeric(s);
      if n.None? then Err(BadCursor) else Ok(n)
  }

  function ResolveLimit(n: int): (limit: nat)
    ensures 1 <= limit <= 100
    ensures n <= 0 ==> limit == 20
    ensures n > 0 ==> limit == Min(n, 100)
  {
    if n <= 0 then DEFAULT_LIMIT else if n > MAX_LIMIT then MAX_LIMIT else n
  }

  predicate IsSpace(c: char) {
    c in {' ', '\t', '\n', '\r', '\U{B}', '\U{C}', '\U{85}', '\U{A0}'}
  }

  function TrimSpace(s: string): string {
    if s == "" then s
    else if IsSpace(s[0]) then TrimSpace(s[1..])
    else if IsSpace(s[|s| - 1]) then TrimSpace(s[..|s| - 1])
    else s
  }

  function ToLower(s: string): string {
    seq(|s|, i requires 0 <= i < |s| => if 'A' <= s[i] <= 'Z' then s[i] - 'A' + 'a' else s[i])
  }

  function NewAddress(text: string): Option<string> {
    var s := TrimSpace(ToLower(text));
    if "0x" <= s && |s| == 42 && forall i :: 2 <= i < |s| ==> '0' <= s[i] <= '9' || 'a' <= s[i] <= 'f'
    then Some(s) else None
  }

  /** None for a filter that is not an address. */
  function NormalizeOwner(owner: string): Option<string> {
    if owner == "" then Some("") else NewAddress(owner)
  }

  // ---- Which texts are addresses ----

  predicate Spaces(s: string) {
    forall i :: 0 <= i < |s| ==> IsSpace(s[i])
  }

  /** A text that neither starts nor ends with a space. */
  predicate Bare(s: string) {
    s != "" ==> !IsSpace(s[0]) && !IsSpace(s[|s| - 1])
  }

  predicate HexDigit(c: char) {
    '0' <= c <= '9' || 'a' <= c <= 'f' || 'A' <= c <= 'F'
  }

  predicate AddressText(s: string) {
    && |s| == 42 && s[0] == '0' && (s[1] == 'x' || s[1] == 'X')
    && forall i :: 2 <= i < 42 ==> HexDigit(s[i])
  }

  /** Every text is a bare one with spaces around it. */
  lemma {:induction false} TrimParts(s: string) returns (before: string, after: string)
    ensures s == before + TrimSpace(s) + after && Spaces(before) && Spaces(after) && Bare(TrimSpace(s))
    decreases |s|
  {
    if s == "" {
      before, after := "", "";
    } else if IsSpace(s[0]) {
      before, after := TrimParts(s[1..]);
      before := [s[0]] + before;
    } else if IsSpace(s[|s| - 1]) {
      before, after := TrimParts(s[..|s| - 1]);
      after := after + [s[|s| - 1]];
    } else {
      before, after := "", "";
    }
  }

  lemma {:induction false} TrimOf(before: string, s: string, after: string)
    requires Spaces(before) && Spaces(after) && s != "" && Bare(s)
    ensures TrimSpace(before + s + after) == s
    decreases |before| + |after|
  {
    var text := before + s + after;
    if before != "" {
      assert text[1..] == before[1..] + s + after;
      TrimOf(before[1..], s, after);
    } else if after != "" {
      assert text[..|text| - 1] == before + s + after[..|after| - 1];
      TrimOf(before, s, after[..|after| - 1]);
    } else {
      assert text == s;
    }
  }

  /**
   With spaces around it ignored, a text is an address if and only if it is 0x and 40 hexadecimal digits, in
   either case.
   */
  lemma {:induction false} AddressIff(before: string, s: string, after: string)
    requires Spaces(before) && Spaces(after) && s != "" && Bare(s)
    ensures NewAddress(before + s + after).Some? <==> AddressText(s)
    ensures AddressText(s) ==>
              var a := NewAddress(before + s + after).value;
              |a| == 42 && forall i :: 0 <= i < 42 ==> a[i] == if 'A' <= s[i] <= 'Z' then s[i] - 'A' + 'a' else s[i]
  {
    var low := ToLower(s);
    assert ToLower(before + s + after) == ToLower(before) + low + ToLower(after);
    TrimOf(ToLower(before), low, ToLower(after));
    assert NewAddress(before + s + after).Some? <==>
           "0x" <= low && |low| == 42 && forall i :: 2 <= i < |low| ==> '0' <= low[i] <= '9' || 'a' <= low[i] <= 'f';
    assert |low| == |s|;
    if |s| == 42 {
      assert "0x" <= low <==> low[0] == '0' && low[1] == 'x';
      forall i | 2 <= i < 42
        ensures HexDigit(s[i]) <==> '0' <= low[i] <= '9' || 'a' <= low[i] <= 'f'
      {
      }
    }
  }

  /** A text of spaces only is none. */
  lemma {:induction false} SpacesAreNoAddress(s: string)
    requires Spaces(s)
    ensures NewAddress(s).None?
  {
    if s != "" {
      assert Spaces(s[1..]) && ToLower(s)[1..] == ToLower(s[1..]);
      SpacesAreNoAddress(s[1..]);
    }
  }

  /** Exactly the texts of decimal digits are numbers. */
  lemma {:induction false} NumericIff(s: string)
    ensures ParseNumeric(s).Some? <==> s != "" && forall i :: 0 <= i < |s| ==> '0' <= s[i] <= '9'
  {
    if |s| > 1 {
      var init := s[..|s| - 1];
      NumericIff(init);
      assert forall i :: 0 <= i < |init| ==> s[i] == init[i];
    }
  }

  /** Stored owners are normalised addresses, so reading them back changes nothing. */
  predicate StoredOwners(t: Table) {
    forall k :: k in t ==> t[k].tokenID == k && NewAddress(t[k].data.owner) == Some(t[k].data.owner)
  }

  // ---- The queries ----

  ghost predicate Descending(s: seq<nat>) {
    forall i, j :: 0 <= i < j < |s| ==> s[i] > s[j]
  }

  function MaxKey(keys: set<nat>): (k: nat)
    requires keys != {}
    ensures k in keys && forall l :: l in keys ==> l <= k
  {
    MaxExists(keys);
    var k :| k in keys && forall l :: l in keys ==> l <= k;
    k
  }

  lemma {:induction false} MaxExists(keys: set<nat>)
    requires keys != {}
    ensures exists k :: k in keys && forall l :: l in keys ==> l <= k
  {
    var k :| k in keys;
    if keys - {k} != {} {
      MaxExists(keys - {k});
      var m :| m in keys - {k} && forall l :: l in keys - {k} ==> l <= m;
      var best := if k > m then k else m;
      assert forall l :: l in keys ==> l == k || l in keys - {k};
      assert best in keys && forall l :: l in keys ==> l <= best;
    } else {
      assert keys == {k};
    }
  }

  /** ORDER BY token_id DESC. */
  function OrderDesc(keys: set<nat>): (s: seq<nat>)
    ensures Descending(s) && forall k :: k in s <==> k in keys
  {
    if keys == {} then [] else [MaxKey(keys)] + OrderDesc(keys - {MaxKey(keys)})
  }

  predicate Before(cursor: Option<nat>, k: nat) {
    cursor.None? || k < cursor.value
  }

  function Matches(ilike: (string, string) -> bool, c: Certificate, query: string): bool {
    ilike(c.data.title, query) || ilike(c.data.issuerName, query) || ilike(c.data.recipientName, query)
  }

  /** LIMIT. */
  function Rows(t: Table, keys: set<nat>, limit: nat): seq<Certificate>
    requires keys <= t.Keys
  {
    var order := OrderDesc(keys);
    var n := Min(limit, |order|);
    seq(n, i requires 0 <= i < n => assert order[i] in keys; t[order[i]])
  }

  function ListCertificates(t: Table, cursor: Option<nat>, limit: nat): seq<Certificate> {
    Rows(t, (set k | k in t && Before(cursor, k)), limit)
  }

  function ListCertificatesByOwner(t: Table, owner: string, cursor: Option<nat>, limit: nat): seq<Certificate> {
    Rows(t, (set k | k in t && t[k].data.owner == owner && Before(cursor, k)), limit)
  }

  function SearchCertificates(t: Table, ilike: (string, string) -> bool, query: string, cursor: Option<nat>,
                              limit: nat): seq<Certificate> {
    Rows(t, (set k | k in t && Matches(ilike, t[k], query) && Before(cursor, k)), limit)
  }

  function SearchCertificatesByOwner(t: Table, ilike: (string, string) -> bool, owner: string, query: string,
                                     cursor: Option<nat>, limit: nat): seq<Certificate>
  {
    Rows(t, (set k | k in t && t[k].data.owner == owner && Matches(ilike, t[k], query) && Before(cursor, k)), limit)
  }

  function Dispatch(t: Table, ilike: (string, string) -> bool, owner: string, query: string,
                    cursor: Option<nat>, limit: nat): seq<Certificate>
  {
    if owner == "" && query == "" then ListCertificates(t, cursor, limit)
    else if owner != "" && query == "" then ListCertificatesByOwner(t, owner, cursor, limit)
    else if owner == "" && query != "" then SearchCertificates(t, ilike, query, cursor, limit)
    else SearchCertificatesByOwner(t, ilike, owner, query, cursor, limit)
  }

  // ---- Pages ----

  function ToDomain(row: Certificate): Option<Certificate> {
    var owner := NewAddress(row.data.owner);
    if owner.None? then None else Some(row.(data := row.data.(owner := owner.value)))
  }

  /** limit + 1 rows mean that there is more; a row with a bad owner spoils the page that shows it. */
  function Built(fetched: seq<Certificate>, limit: nat): Result<Page, ListError> {
    var shown := fetched[..Min(limit, |fetched|)];
    if exists r :: r in shown && ToDomain(r).None? then Err(BadRow)
    else
      var items := seq(|shown|, i requires 0 <= i < |shown| => assert shown[i] in shown; ToDomain(shown[i]).value);
      var hasMore := |fetched| > limit;
      Ok(Page(items, if hasMore && items != [] then Decimal(items[|items| - 1].tokenID) else "", hasMore))
  }

  method BuildPage(fetched: seq<Certificate>, limit: nat) returns (page: Result<Page, ListError>)
    ensures page == Built(fetched, limit)
  {
    hide ToDomain, Decimal;
    var rows := fetched;
    assert fetched[..|fetched|] == fetched;
    var hasMore := |rows| > limit;
    if hasMore {
      rows := rows[..limit];
    }
    var items: seq<Certificate> := [];
    var i := 0;
    while i < |rows|
      invariant 0 <= i <= |rows| && |items| == i
      invariant forall j :: 0 <= j < i ==> ToDomain(rows[j]) == Some(items[j])
    {
      var c := ToDomain(rows[i]);
      assert rows[i] in rows;
      if c.None? {
        return Err(BadRow);
      }
      items := items + [c.value];
      i := i + 1;
    }
    assert rows == fetched[..Min(limit, |fetched|)];
    assert forall r :: r in rows ==> ToDomain(r).Some?;
    assert Built(fetched, limit).value.items == items;
    var nextCursor := "";
    if hasMore && |items| > 0 {
      nextCursor := Decimal(items[|items| - 1].tokenID);
    }
    return Ok(Page(items, nextCursor, hasMore));
  }

  method List(t: Table, ilike: (string, string) -> bool, p: ListParams) returns (page: Result<Page, ListError>)
    ensures page == Listed(t, ilike, p)
  {
    hide NewAddress, Decimal, Dispatch, ParseNumeric, Built, ResolveLimit;
    var owner := NormalizeOwner(p.owner);
    if owner.None? {
      return Ok(Page([], "", false)); // a bad filter is the caller's mistake, not an error
    }
    var limit := ResolveLimit(p.limit);
    var cursor := ParseCursor(p.cursor);
    if cursor.Err? {
      return Err(BadCursor);
    }
    page := BuildPage(Dispatch(t, ilike, owner.value, p.query, cursor.value, limit + 1), limit);
  }

  /** The page that List answers with. */
  function Listed(t: Table, ilike: (string, string) -> bool, p: ListParams): Result<Page, ListError> {
    var owner := NormalizeOwner(p.owner);
    if owner.None? then Ok(Page([], "", false))
    else
      var limit := ResolveLimit(p.limit);
      match ParseCursor(p.cursor)
      case Ok(cursor) => Built(Dispatch(t, ilike, owner.value, p.query, cursor, limit + 1), limit)
      case _ => Err(BadCursor)
  }

  // ---- What a query selects ----

  /** The filter that a caller means: an empty owner or query does not restrict. */
  function Selected(t: Table, ilike: (string, string) -> bool, owner: string, query: string): set<nat> {
    set k | k in t && (owner == "" || t[k].data.owner == owner) && (query == "" || Matches(ilike, t[k], query))
  }

  function SelectedBefore(t: Table, ilike: (string, string) -> bool, owner: string, query: string,
                          cursor: Option<nat>): set<nat> {
    set k | k in Selected(t, ilike, owner, query) && Before(cursor, k)
  }

  /** Each of the four branches runs the query that its filters mean. */
  lemma {:induction false} DispatchSelects(t: Table, ilike: (string, string) -> bool, owner: string, query: string,
                                           cursor: Option<nat>, limit: nat)
    ensures SelectedBefore(t, ilike, owner, query, cursor) <= t.Keys
    ensures Dispatch(t, ilike, owner, query, cursor, limit)
            == Rows(t, SelectedBefore(t, ilike, owner, query, cursor), limit)
    ensures forall r :: r in Dispatch(t, ilike, owner, query, cursor, limit) ==> exists k :: k in t && t[k] == r
  {
    var keys := SelectedBefore(t, ilike, owner, query, cursor);
    if owner == "" && query == "" {
      assert keys == set k | k in t && Before(cursor, k);
    } else if owner != "" && query == "" {
      assert keys == set k | k in t && t[k].data.owner == owner && Before(cursor, k);
    } else if owner == "" && query != "" {
      assert keys == set k | k in t && Matches(ilike, t[k], query) && Before(cursor, k);
    } else {
      assert keys == set k | k in t && t[k].data.owner == owner && Matches(ilike, t[k], query) && Before(cursor, k);
    }
  }

  // ---- Walking the pages ----

  lemma {:induction false} OrderUnique(s: seq<nat>, keys: set<nat>)
    requires Descending(s) && forall k :: k in s <==> k in keys
    ensures s == OrderDesc(keys)
  {
    hide MaxKey;
    if s == [] {
      assert keys == {};
    } else {
      HeadIsMax(s, keys);
      OrderUnique(s[1..], keys - {s[0]});
    }
  }

  lemma {:induction false} HeadIsMax(s: seq<nat>, keys: set<nat>)
    requires s != [] && Descending(s) && forall k :: k in s <==> k in keys
    ensures s[0] in keys && MaxKey(keys) == s[0]
    ensures Descending(s[1..]) && forall k :: k in s[1..] <==> k in keys - {s[0]}
  {
  }

  /** The keys before the j-th listed one are what the list holds from j on. */
  lemma {:induction false} OrderSuffix(keys: set<nat>, j: nat)
    requires j <= |OrderDesc(keys)|
    ensures j == 0 ==> OrderDesc(set k | k in keys && Before(None, k)) == OrderDesc(keys)
    ensures j > 0 ==> OrderDesc(set k | k in keys && Before(Some(OrderDesc(keys)[j - 1]), k)) == OrderDesc(keys)[j..]
  {
    hide OrderDesc;
    var order := OrderDesc(keys);
    if j == 0 {
      assert (set k | k in keys && Before(None, k)) == keys;
    } else {
      var rest := set k | k in keys && Before(Some(order[j - 1]), k);
      forall k
        ensures k in order[j..] <==> k in rest
      {
        SuffixMembers(order, j, k);
      }
      OrderUnique(order[j..], rest);
    }
  }

  lemma {:induction false} SuffixMembers(order: seq<nat>, j: nat, k: nat)
    requires Descending(order) && 0 < j <= |order|
    ensures k in order[j..] <==> k in order && k < order[j - 1]
  {
  }

  /** All the rows a caller asks for, in order. */
  function Listing(t: Table, ilike: (string, string) -> bool, owner: string, query: string): seq<Certificate> {
    var order := OrderDesc(Selected(t, ilike, owner, query));
    seq(|order|, i requires 0 <= i < |order| => assert order[i] in Selected(t, ilike, owner, query); t[order[i]])
  }

  /** Rows were only added to the table, all with tokens above those it held. */
  ghost predicate GrewAbove(t: Table, t': Table) {
    && (forall k :: k in t ==> k in t' && t'[k] == t[k])
    && (forall k :: k in t' && k !in t ==> forall l :: l in t ==> l < k)
  }

  function Cursor(t: Table, ilike: (string, string) -> bool, owner: string, query: string, j: nat): Option<nat>
    requires j <= |Listing(t, ilike, owner, query)|
  {
    if j == 0 then None else Some(Listing(t, ilike, owner, query)[j - 1].tokenID)
  }

  /** Tokens above all old ones are never behind a cursor. */
  lemma {:induction false} SelectedBehind(t: Table, t': Table, ilike: (string, string) -> bool, owner: string,
                                          query: string, j: nat)
    requires StoredOwners(t) && j <= |Listing(t, ilike, owner, query)|
    requires GrewAbove(t, t') && (j == 0 ==> t' == t)
    ensures var cursor := Cursor(t, ilike, owner, query, j);
            && SelectedBefore(t', ilike, owner, query, cursor)
               == (set k | k in Selected(t, ilike, owner, query) && Before(cursor, k))
            && cursor == if j == 0 then None else Some(OrderDesc(Selected(t, ilike, owner, query))[j - 1])
  {
    hide Matches, StoredOwners, NewAddress, Listing, OrderDesc;
    ListingTokens(t, ilike, owner, query);
    var cursor := Cursor(t, ilike, owner, query, j);
    forall k | k in t' && Before(cursor, k)
      ensures k in t && t'[k] == t[k]
    {
      if j > 0 {
        assert OrderDesc(Selected(t, ilike, owner, query))[j - 1] in t;
      }
    }
  }

  lemma {:induction false} RowsOf(t: Table, t': Table, keys: set<nat>, rest: set<nat>, j: nat, limit: nat)
    requires keys <= t.Keys && rest <= t'.Keys && (forall k :: k in keys ==> k in t' && t'[k] == t[k])
    requires j <= |OrderDesc(keys)| && OrderDesc(rest) == OrderDesc(keys)[j..]
    ensures var all := Rows(t, keys, |OrderDesc(keys)|); |all| == |OrderDesc(keys)|
    ensures var all := Rows(t, keys, |OrderDesc(keys)|); Rows(t', rest, limit) == all[j..][..Min(limit, |all| - j)]
  {
    hide OrderDesc;
    var order := OrderDesc(keys);
    forall i | 0 <= i < |order|
      ensures order[i] in keys
    {
    }
  }

  /** A read behind the j-th row sees the rest of the old listing, even in a table that has grown. */
  lemma {:induction false} ReadBehind(t: Table, t': Table, ilike: (string, string) -> bool, owner: string,
                                      query: string, j: nat, limit: nat)
    requires StoredOwners(t) && j <= |Listing(t, ilike, owner, query)|
    requires GrewAbove(t, t') && (j == 0 ==> t' == t)
    ensures var all := Listing(t, ilike, owner, query);
            Dispatch(t', ilike, owner, query, Cursor(t, ilike, owner, query, j), limit) ==
            all[j..][..Min(limit, |all| - j)]
  {
    hide Matches, StoredOwners, NewAddress, Dispatch, OrderDesc, Before, SelectedBefore, Rows;
    var cursor := Cursor(t, ilike, owner, query, j);
    var keys := Selected(t, ilike, owner, query);
    DispatchSelects(t', ilike, owner, query, cursor, limit);
    SelectedBehind(t, t', ilike, owner, query, j);
    OrderSuffix(keys, j);
    ListingIsRows(t, ilike, owner, query);
    RowsOf(t, t', keys, SelectedBefore(t', ilike, owner, query, cursor), j, limit);
    assert OrderDesc(keys)[0..] == OrderDesc(keys);
  }

  lemma {:induction false} ListingIsRows(t: Table, ilike: (string, string) -> bool, owner: string, query: string)
    ensures var keys := Selected(t, ilike, owner, query);
            keys <= t.Keys && Listing(t, ilike, owner, query) == Rows(t, keys, |OrderDesc(keys)|)
  {
  }

  lemma {:induction false} ListingTokens(t: Table, ilike: (string, string) -> bool, owner: string, query: string)
    requires StoredOwners(t)
    ensures var order := OrderDesc(Selected(t, ilike, owner, query));
            && |Listing(t, ilike, owner, query)| == |order|
            && forall i :: 0 <= i < |order| ==> Listing(t, ilike, owner, query)[i].tokenID == order[i] && order[i] in t
  {
    var order := OrderDesc(Selected(t, ilike, owner, query));
    forall i | 0 <= i < |order|
      ensures order[i] in t
    {
      assert order[i] in Selected(t, ilike, owner, query);
    }
  }

  /**
   The pages of a caller that follows nextCursor from the empty cursor, page i being read from the
   table as it is then.
   */
  ghost predicate Walk(ts: seq<Table>, ilike: (string, string) -> bool, p: ListParams, pages: seq<Page>) {
    && pages != [] && |ts| == |pages|
    && Listed(ts[0], ilike, p.(cursor := "")) == Ok(pages[0])
    && (forall i :: 0 < i < |pages| ==> Follows(ts[i], ilike, p, pages[i - 1], pages[i]))
    && (forall i :: 0 < i < |ts| ==> GrewAbove(ts[0], ts[i]))
  }

  ghost predicate Follows(t: Table, ilike: (string, string) -> bool, p: ListParams, page: Page, page': Page) {
    page.hasMore && Listed(t, ilike, p.(cursor := page.nextCursor)) == Ok(page')
  }

  function Concat(pages: seq<Page>): seq<Certificate> {
    if pages == [] then [] else Concat(pages[..|pages| - 1]) + pages[|pages| - 1].items
  }

  predicate Readable(rows: seq<Certificate>) {
    forall r :: r in rows ==> ToDomain(r) == Some(r)
  }

  lemma {:induction false} ListingReadable(t: Table, ilike: (string, string) -> bool, owner: string, query: string)
    requires StoredOwners(t)
    ensures Readable(Listing(t, ilike, owner, query))
  {
    hide NewAddress, OrderDesc, Matches;
    var order := OrderDesc(Selected(t, ilike, owner, query));
    forall i | 0 <= i < |order|
      ensures ToDomain(Listing(t, ilike, owner, query)[i]) == Some(Listing(t, ilike, owner, query)[i])
    {
      assert order[i] in Selected(t, ilike, owner, query);
    }
  }

  lemma {:induction false} PageCut(all: seq<Certificate>, j: nat, limit: nat)
    requires Readable(all) && j <= |all| && limit >= 1
    ensures var end := Min(j + limit, |all|);
            Built(all[j..][..Min(limit + 1, |all| - j)], limit)
            == Ok(Page(all[j..end], if j + limit < |all| then Decimal(all[end - 1].tokenID) else "", j + limit < |all|))
  {
    hide ToDomain, Decimal;
    var rows := all[j..][..Min(limit + 1, |all| - j)];
    var end := Min(j + limit, |all|);
    assert rows[..Min(limit, |rows|)] == all[j..end];
    forall i | j <= i < end
      ensures ToDomain(all[i]) == Some(all[i]) && all[j..end][i - j] == all[i]
    {
      assert all[i] in all;
    }
    assert forall r :: r in all[j..end] ==> r in all;
    assert Built(rows, limit).Ok? && Built(rows, limit).value.items == all[j..end];
  }

  /**
   After n pages of a walk, over a fixed table or one that only gains higher tokens, the caller has
   exactly the first n * limit rows of the listing at the start, and hasMore tells whether any is left.
   */
  lemma {:induction false} WalkSoFar(ts: seq<Table>, ilike: (string, string) -> bool, p: ListParams, pages: seq<Page>)
    requires Walk(ts, ilike, p, pages) && StoredOwners(ts[0]) && NormalizeOwner(p.owner).Some?
    ensures var all := Listing(ts[0], ilike, NormalizeOwner(p.owner).value, p.query);
            var n, limit, owner := |pages|, ResolveLimit(p.limit), NormalizeOwner(p.owner).value;
            && Times(n - 1, limit) <= |all|
            && Concat(pages) == all[..Min(Times(n, limit), |all|)]
            && pages[n - 1].hasMore == (Times(n, limit) < |all|)
            && (pages[n - 1].hasMore ==>
                  pages[n - 1].nextCursor == CursorText(ts[0], ilike, owner, p.query, Times(n, limit)))
  {
    hide *;
    WalkParts(ts, ilike, p, pages);
    var owner := NormalizeOwner(p.owner).value;
    var all := Listing(ts[0], ilike, owner, p.query);
    var n, limit := |pages|, ResolveLimit(p.limit);
    var m := n - 1;
    var j := Times(m, limit);
    TimesStep(n, limit);
    if m > 0 {
      TimesStep(m, limit);
      WalkSoFar(ts[..m], ilike, p, pages[..m]);
      assert pages[..m][m - 1] == pages[m - 1];
      CursorParses(ts[0], ilike, owner, p.query, j);
      PageAt(ts[0], ts[m], ilike, p, pages[m - 1].nextCursor, j, pages[m]);
    } else {
      CursorParses(ts[0], ilike, owner, p.query, 0);
      PageAt(ts[0], ts[0], ilike, p, "", 0, pages[0]);
    }
    CursorOrLast(ts[0], ilike, owner, p.query, j, limit);
    ConcatStep(pages);
    var end := Min(j + limit, |all|);
    MinCases(j, limit, |all|);
    JoinCut(all, j, end);
  }

  lemma {:induction false} JoinCut(all: seq<Certificate>, j: nat, end: nat)
    requires j <= end <= |all|
    ensures all[..end] == all[..j] + all[j..end]
  {
  }

  /** The number of rows in n full pages. */
  function Times(n: nat, limit: nat): nat {
    n * limit
  }

  lemma {:induction false} TimesStep(n: nat, limit: nat)
    requires n >= 1
    ensures Times(n, limit) == Times(n - 1, limit) + limit && Times(0, limit) == 0
  {
  }

  lemma {:induction false} CursorOrLast(t: Table, ilike: (string, string) -> bool, owner: string, query: string,
                                        j: nat, limit: nat)
    requires limit >= 1
    ensures var all := Listing(t, ilike, owner, query);
            j + limit < |all| ==> CursorText(t, ilike, owner, query, j + limit) == Decimal(all[j + limit - 1].tokenID)
  {
  }

  lemma {:induction false} MinCases(j: nat, limit: nat, len: nat)
    requires j <= len
    ensures Min(j + limit, len) == if j + limit < len then j + limit else len
    ensures j <= Min(j + limit, len) && Min(j, len) == j
  {
  }

  lemma {:induction false} ConcatStep(pages: seq<Page>)
    requires pages != []
    ensures Concat(pages) == Concat(pages[..|pages| - 1]) + pages[|pages| - 1].items
    ensures Concat([]) == []
  {
  }

  lemma {:induction false} WalkParts(ts: seq<Table>, ilike: (string, string) -> bool, p: ListParams, pages: seq<Page>)
    requires Walk(ts, ilike, p, pages)
    ensures var m := |pages| - 1;
            && pages != [] && |ts| == |pages| && GrewAbove(ts[0], ts[m])
            && (m > 0 ==>
                  && Walk(ts[..m], ilike, p, pages[..m]) && pages[m - 1].hasMore
                  && Listed(ts[m], ilike, p.(cursor := pages[m - 1].nextCursor)) == Ok(pages[m]))
            && Listed(ts[0], ilike, p.(cursor := "")) == Ok(pages[0])
            && GrewAbove(ts[0], ts[0])
  {
  }

  /** The cursor string that stands for the position after j rows. */
  function CursorText(t: Table, ilike: (string, string) -> bool, owner: string, query: string, j: nat): string
    requires j <= |Listing(t, ilike, owner, query)|
  {
    if j == 0 then "" else Decimal(Listing(t, ilike, owner, query)[j - 1].tokenID)
  }

  lemma {:induction false} CursorParses(t: Table, ilike: (string, string) -> bool, owner: string, query: string, j: nat)
    requires j <= |Listing(t, ilike, owner, query)|
    ensures ParseCursor(CursorText(t, ilike, owner, query, j)) == Ok(Cursor(t, ilike, owner, query, j))
    ensures j == 0 ==> CursorText(t, ilike, owner, query, j) == ""
    ensures j > 0 ==> CursorText(t, ilike, owner, query, j) == Decimal(Listing(t, ilike, owner, query)[j - 1].tokenID)
  {
    if j > 0 {
      CursorRoundTrip(Listing(t, ilike, owner, query)[j - 1].tokenID);
    }
  }

  lemma {:induction false} PageAt(t: Table, t': Table, ilike: (string, string) -> bool, p: ListParams, cursor: string,
                                  j: nat, page: Page)
    requires StoredOwners(t) && GrewAbove(t, t') && (j == 0 ==> t' == t) && NormalizeOwner(p.owner).Some?
    requires j <= |Listing(t, ilike, NormalizeOwner(p.owner).value, p.query)|
    requires ParseCursor(cursor) == Ok(Cursor(t, ilike, NormalizeOwner(p.owner).value, p.query, j))
    requires Listed(t', ilike, p.(cursor := cursor)) == Ok(page)
    ensures var all := Listing(t, ilike, NormalizeOwner(p.owner).value, p.query);
            var limit := ResolveLimit(p.limit);
            var end := Min(j + limit, |all|);
            && page.items == all[j..end]
            && page.hasMore == (j + limit < |all|)
            && (j + limit < |all| ==> page.nextCursor == Decimal(all[end - 1].tokenID))
  {
    hide Dispatch, Listing, GrewAbove, StoredOwners, NormalizeOwner, ParseCursor, Built, ResolveLimit, Cursor, Readable;
    var all := Listing(t, ilike, NormalizeOwner(p.owner).value, p.query);
    ReadBehind(t, t', ilike, NormalizeOwner(p.owner).value, p.query, j, ResolveLimit(p.limit) + 1);
    ListingReadable(t, ilike, NormalizeOwner(p.owner).value, p.query);
    PageCut(all, j, ResolveLimit(p.limit));
  }

  /** The cursor of a page with more is never refused: the next read gives a page, even after growth. */
  lemma {:induction false} WalkGoesOn(ts: seq<Table>, ilike: (string, string) -> bool, p: ListParams, pages: seq<Page>,
                                      t': Table)
    requires Walk(ts, ilike, p, pages) && StoredOwners(ts[0]) && NormalizeOwner(p.owner).Some? && GrewAbove(ts[0], t')
    requires pages[|pages| - 1].hasMore
    ensures Listed(t', ilike, p.(cursor := pages[|pages| - 1].nextCursor)).Ok?
  {
    hide Dispatch, Listing, GrewAbove, StoredOwners, NormalizeOwner, ParseCursor, Built, ResolveLimit, Readable, Walk,
         Concat, Times;
    var owner, n, limit := NormalizeOwner(p.owner).value, |pages|, ResolveLimit(p.limit);
    WalkParts(ts, ilike, p, pages);
    WalkSoFar(ts, ilike, p, pages);
    var all, j := Listing(ts[0], ilike, owner, p.query), Times(n, limit);
    assert j > 0 by { TimesStep(n, limit); }
    CursorParses(ts[0], ilike, owner, p.query, j);
    ReadBehind(ts[0], t', ilike, owner, p.query, j, limit + 1);
    ListingReadable(ts[0], ilike, owner, p.query);
    PageCut(all, j, limit);
  }

  function CeilDiv(a: nat, b: nat): nat
    requires b > 0
  {
    (a + b - 1) / b
  }

  lemma {:induction false} CeilDivUnique(a: nat, b: nat, n: nat)
    requires b > 0 && n >= 1 && Times(n - 1, b) < a <= Times(n, b)
    ensures CeilDiv(a, b) == n
  {
    var r := a - 1 - (n - 1) * b;
    assert a + b - 1 == n * b + r by {
      assert n * b == (n - 1) * b + b;
    }
    QuotientOf(n, b, r);
  }

  lemma {:induction false} QuotientOf(n: nat, b: nat, r: nat)
    requires r < b
    ensures (n * b + r) / b == n
  {
    var q := (n * b + r) / b;
    var d := q - n;
    assert n * b + r == q * b + (n * b + r) % b;
    assert d * b == q * b - n * b;
    assert d >= 1 ==> d * b >= b;
    assert d <= -1 ==> d * b + b <= 0;
  }

  /**
   A walk that has reached a page without more has read every matching row of the table at the start
   exactly once, in strictly descending token order, in max(1, ceil(n / limit)) pages.
   */
  lemma {:induction false} CompleteWalk(ts: seq<Table>, ilike: (string, string) -> bool, p: ListParams,
                                        pages: seq<Page>)
    requires Walk(ts, ilike, p, pages) && StoredOwners(ts[0]) && NormalizeOwner(p.owner).Some?
    requires !pages[|pages| - 1].hasMore
    ensures var all := Listing(ts[0], ilike, NormalizeOwner(p.owner).value, p.query);
            var selected := Selected(ts[0], ilike, NormalizeOwner(p.owner).value, p.query);
            && Concat(pages) == all
            && |pages| == Max(1, CeilDiv(|all|, ResolveLimit(p.limit)))
            && (forall i, j :: 0 <= i < j < |all| ==> all[i].tokenID > all[j].tokenID)
            && (forall r :: r in all <==>
                              exists k :: k in selected && ts[0][k] == r)
  {
    hide Walk, StoredOwners, NormalizeOwner, Concat, Selected, OrderDesc, ResolveLimit;
    WalkParts(ts, ilike, p, pages);
    var owner := NormalizeOwner(p.owner).value;
    var all := Listing(ts[0], ilike, owner, p.query);
    var n, limit := |pages|, ResolveLimit(p.limit);
    WalkSoFar(ts, ilike, p, pages);
    assert all[..|all|] == all;
    PageCount(ts, ilike, p, pages);
    ListingTokens(ts[0], ilike, owner, p.query);
  }

  lemma {:induction false} PageCount(ts: seq<Table>, ilike: (string, string) -> bool, p: ListParams, pages: seq<Page>)
    requires Walk(ts, ilike, p, pages) && StoredOwners(ts[0]) && NormalizeOwner(p.owner).Some?
    requires !pages[|pages| - 1].hasMore
    ensures var all := Listing(ts[0], ilike, NormalizeOwner(p.owner).value, p.query);
            |pages| == Max(1, CeilDiv(|all|, ResolveLimit(p.limit)))
  {
    hide Walk, StoredOwners, NormalizeOwner, Concat, Listing, ResolveLimit, Times, CeilDiv;
    WalkParts(ts, ilike, p, pages);
    var len := |Listing(ts[0], ilike, NormalizeOwner(p.owner).value, p.query)|;
    var n, limit := |pages|, ResolveLimit(p.limit);
    WalkSoFar(ts, ilike, p, pages);
    TimesStep(n, limit);
    CeilOfNone(limit);
    if n >= 2 {
      LastBefore(ts, ilike, p, pages);
    }
    if len > 0 {
      CeilDivUnique(len, limit, n);
    }
  }

  lemma {:induction false} CeilOfNone(b: nat)
    requires b > 0
    ensures CeilDiv(0, b) == 0
  {
  }

  lemma {:induction false} LastBefore(ts: seq<Table>, ilike: (string, string) -> bool, p: ListParams, pages: seq<Page>)
    requires Walk(ts, ilike, p, pages) && StoredOwners(ts[0]) && NormalizeOwner(p.owner).Some? && |pages| >= 2
    ensures Times(|pages| - 1, ResolveLimit(p.limit)) < |Listing(ts[0], ilike, NormalizeOwner(p.owner).value, p.query)|
  {
    hide Walk, Listing, Listed, Concat, NormalizeOwner, Times;
    var m := |pages| - 1;
    WalkParts(ts, ilike, p, pages);
    WalkSoFar(ts[..m], ilike, p, pages[..m]);
  }

  // ---- What a caller gets, in the caller's own terms ----

  /**
   r is a row of the table with this owner, unless none was asked for, and a text that matches, unless none
   was asked for.
   */
  predicate Asked(t: Table, ilike: (string, string) -> bool, p: ListParams, r: Certificate) {
    && (exists k :: k in t && t[k] == r)
    && (p.owner == "" || r.data.owner == TrimSpace(ToLower(p.owner)))
    && (p.query == "" || ilike(r.data.title, p.query) || ilike(r.data.issuerName, p.query)
        || ilike(r.data.recipientName, p.query))
  }

  /** A finished walk has read exactly the rows asked for. */
  lemma {:induction false} WalkReadsWhatWasAsked(ts: seq<Table>, ilike: (string, string) -> bool, p: ListParams,
                                                 pages: seq<Page>)
    requires Walk(ts, ilike, p, pages) && StoredOwners(ts[0]) && (p.owner == "" || NewAddress(p.owner).Some?)
    requires !pages[|pages| - 1].hasMore
    ensures forall r :: r in Concat(pages) <==> Asked(ts[0], ilike, p, r)
  {
    var owner, t := NormalizeOwner(p.owner).value, ts[0];
    hide Walk, StoredOwners, Concat, Listing, CeilDiv, ResolveLimit, TrimSpace, ToLower, OrderDesc;
    CompleteWalk(ts, ilike, p, pages);
    OwnerAsked(p.owner);
    forall r
      ensures (exists k :: k in Selected(t, ilike, owner, p.query) && t[k] == r) <==> Asked(t, ilike, p, r)
    {
      if Asked(t, ilike, p, r) {
        var k :| k in t && t[k] == r;
        assert k in Selected(t, ilike, owner, p.query);
      }
    }
  }

  lemma {:induction false} OwnerAsked(owner: string)
    requires owner == "" || NewAddress(owner).Some?
    ensures NormalizeOwner(owner).Some?
            && (owner != "" ==> NormalizeOwner(owner).value == TrimSpace(ToLower(owner)) != "")
    ensures owner == "" ==> NormalizeOwner(owner).value == ""
  {
  }

  /** The answers that are no page of rows: an owner that is no address, a cursor that is no number, a bad row. */
  lemma {:induction false} ListOutcomes(t: Table, ilike: (string, string) -> bool, p: ListParams)
    ensures p.owner != "" && NewAddress(p.owner).None? ==> Listed(t, ilike, p) == Ok(Page([], "", false))
    ensures (p.owner == "" || NewAddress(p.owner).Some?) ==>
              (Listed(t, ilike, p) == Err(BadCursor) <==>
                 exists i :: 0 <= i < |p.cursor| && !('0' <= p.cursor[i] <= '9'))
    ensures StoredOwners(t) ==> Listed(t, ilike, p) != Err(BadRow)
  {
    hide NewAddress, Dispatch, ResolveLimit;
    NumericIff(p.cursor);
    if StoredOwners(t) && ParseCursor(p.cursor).Ok? && NormalizeOwner(p.owner).Some? {
      DispatchSelects(t, ilike, NormalizeOwner(p.owner).value, p.query, ParseCursor(p.cursor).value,
                      ResolveLimit(p.limit) + 1);
    }
  }

  /** One bad owner among the rows shown spoils the page. */
  lemma {:induction false} BadRowIff(fetched: seq<Certificate>, limit: nat)
    ensures Built(fetched, limit) == Err(BadRow) <==>
            exists i :: 0 <= i < Min(limit, |fetched|) && NewAddress(fetched[i].data.owner).None?
  {
    hide NewAddress, Decimal;
    var shown := fetched[..Min(limit, |fetched|)];
    forall i | 0 <= i < |shown|
      ensures shown[i] in shown && shown[i] == fetched[i]
    {
    }
  }
}
