/**
 * The home page's category key, event filter and price formatting.
 */
module Utils {
  import opened Wrappers
  import opened Strings
  import opened Lists

  /**
   * A category field as it arrives from the chain or from static data: absent
   * (`null`/`undefined`), an Anchor enum object (given by its own keys in
   * order), or a primitive.
   */
  datatype CategoryValue =
    | Absent
    | Obj(keys: seq<string>)
    | Text(s: string)
    | Number(n: int)
    | Flag(b: bool)

  /** JavaScript truthiness of the value. */
  predicate Truthy(v: CategoryValue) {
    match v
    case Absent => false
    case Obj(_) => true
    case Text(s) => s != ""
    case Number(n) => n != 0
    case Flag(b) => b
  }

  /** `String(v)` for a primitive. */
  function Render(v: CategoryValue): string
    requires !v.Obj? && !v.Absent?
  {
    match v
    case Text(s) => s
    case Number(n) => if n < 0 then "-" + NatToString(-n) else NatToString(n)
    case Flag(b) => if b then "true" else "false"
  }

  /** `getCategoryKey(category)` */
  function GetCategoryKey(v: CategoryValue): string {
    if !Truthy(v) then "other"
    else if v.Obj? then
      var key := if v.keys == [] then "other" else ToLower(v.keys[0]);
      if key == "hackathon" || key == "workshop" then "other" else key
    else ToLower(Render(v))
  }

  /** Falsy input and an object without keys both give "other". */
  lemma CategoryKeyDefaults(v: CategoryValue)
    requires !Truthy(v) || v == Obj([])
    ensures GetCategoryKey(v) == "other"
  {
  }

  /** An enum object gives its first key lowercased, the two retired categories folded into "other". */
  lemma CategoryKeyOfObject(keys: seq<string>)
    requires keys != []
    ensures var k := ToLower(keys[0]);
      GetCategoryKey(Obj(keys)) == (if k == "hackathon" || k == "workshop" then "other" else k)
  {
  }

  /** A truthy primitive gives its string form lowercased, so the key never holds an upper-case ASCII letter. */
  lemma CategoryKeyOfPrimitive(v: CategoryValue)
    requires Truthy(v) && !v.Obj?
    ensures GetCategoryKey(v) == ToLower(Render(v))
    ensures forall i :: 0 <= i < |GetCategoryKey(v)| ==> !IsUpper(GetCategoryKey(v)[i])
  {
  }

  /** `FilterCategory` */
  datatype FilterCategory = All | Music | Conference | Sports | Art | Other

  function CategoryName(c: FilterCategory): string {
    match c
    case All => "all"
    case Music => "music"
    case Conference => "conference"
    case Sports => "sports"
    case Art => "art"
    case Other => "other"
  }

  /** `FILTER_LABELS`: each label is the category's name with its first letter capitalised. */
  function FilterLabel(c: FilterCategory): (caption: string)
    ensures |caption| == |CategoryName(c)| && |caption| > 0
    ensures caption[0] == UpperChar(CategoryName(c)[0]) && caption[1..] == CategoryName(c)[1..]
  {
    match c
    case All => "All"
    case Music => "Music"
    case Conference => "Conference"
    case Sports => "Sports"
    case Art => "Art"
    case Other => "Other"
  }

  /** The fields `filterEvents` reads from an event; `name`, `title` and `location` may be absent. */
  datatype Listing = Listing(name: Option<string>, title: Option<string>, location: Option<string>, category: CategoryValue)

  /** `e.name ?? e.title ?? ""` */
  function DisplayName(e: Listing): string {
    if e.name.Some? then e.name.value else e.title.GetOr("")
  }

  predicate InCategory(e: Listing, c: FilterCategory) {
    GetCategoryKey(e.category) == CategoryName(c)
  }

  /** The search test, for an already lowercased query `q`. */
  predicate MatchesQuery(e: Listing, q: string) {
    Contains(ToLower(DisplayName(e)), q) || Contains(ToLower(e.location.GetOr("")), q)
  }

  /** `filterEvents(events, category, query)` */
  function FilterEvents(events: seq<Listing>, c: FilterCategory, query: string): seq<Listing> {
    var byCategory := if c == All then events else Filter(events, e => InCategory(e, c));
    if Trim(query) != [] then Filter(byCategory, e => MatchesQuery(e, ToLower(query))) else byCategory
  }

  /** Whether one event survives the filter: the reference definition, one event at a time. */
  predicate Selected(e: Listing, c: FilterCategory, query: string) {
    && (c == All || GetCategoryKey(e.category) == CategoryName(c))
    && (Blank(query) || MatchesQuery(e, ToLower(query)))
  }

  /**
   * An event is in the result exactly when it is in the input, its category
   * key is the chosen category (unless that is "all"), and, for a query that
   * is not all whitespace, its name (or title) or location contains the
   * query, both sides lowercased.
   */
  lemma FilterEventsMembership(events: seq<Listing>, c: FilterCategory, query: string, e: Listing)
    ensures e in FilterEvents(events, c, query) <==> e in events && Selected(e, c, query)
  {
    TrimEmptyIffBlank(query);
    var byCategory := if c == All then events else Filter(events, e => InCategory(e, c));
    if c != All {
      FilterMembership(events, e => InCategory(e, c), e);
    }
    if Trim(query) != [] {
      FilterMembership(byCategory, e => MatchesQuery(e, ToLower(query)), e);
    }
  }

  /**
   * The result is the input filtered by `Selected`, one event at a time, so
   * every copy of a selected event is kept and every other event is dropped.
   */
  lemma FilterEventsIsSelection(events: seq<Listing>, c: FilterCategory, query: string, e: Listing)
    ensures FilterEvents(events, c, query) == Filter(events, x => Selected(x, c, query))
    ensures multiset(FilterEvents(events, c, query))[e] == if Selected(e, c, query) then multiset(events)[e] else 0
  {
    TrimEmptyIffBlank(query);
    var pc := (x: Listing) => InCategory(x, c);
    var pq := (x: Listing) => MatchesQuery(x, ToLower(query));
    var sel := (x: Listing) => Selected(x, c, query);
    if c == All && Blank(query) {
      FilterKeepsAll(events, sel);
    } else if c == All {
      FilterAgrees(events, pq, sel);
    } else if Blank(query) {
      FilterAgrees(events, pc, sel);
    } else {
      FilterConjunction(events, pc, pq, sel);
    }
    FilterMultiplicity(events, sel, e);
  }

  /** Category "all" with a blank query returns the input as it is. */
  lemma FilterEventsIdentity(events: seq<Listing>, query: string)
    requires Blank(query)
    ensures FilterEvents(events, All, query) == events
  {
    TrimEmptyIffBlank(query);
  }

  /** The result keeps its events in their input order. */
  lemma FilterEventsIsSubseq(events: seq<Listing>, c: FilterCategory, query: string)
    ensures IsSubseq(FilterEvents(events, c, query), events)
  {
    var pc := e => InCategory(e, c);
    var pq := e => MatchesQuery(e, ToLower(query));
    if c == All {
      FilterIsSubseq(events, pq);
    } else {
      FilterIsSubseq(events, pc);
      FilterIsSubseq(Filter(events, pc), pq);
      SubseqTransitive(Filter(Filter(events, pc), pq), Filter(events, pc), events);
    }
    if Trim(query) == [] && c == All {
      SubseqReflexive(events);
    }
  }

  lemma {:induction false} SubseqTransitive<T>(a: seq<T>, b: seq<T>, c: seq<T>)
    requires IsSubseq(a, b) && IsSubseq(b, c)
    ensures IsSubseq(a, c)
    decreases |c|, |b|
  {
    if a != [] && c != [] {
      if b != [] && b[0] == c[0] && IsSubseq(b[1..], c[1..]) {
        if a[0] == b[0] && IsSubseq(a[1..], b[1..]) {
          SubseqTransitive(a[1..], b[1..], c[1..]);
        } else {
          SubseqTransitive(a, b[1..], c[1..]);
        }
      } else {
        SubseqTransitive(a, b, c[1..]);
      }
    }
  }

  /** Filtering a second time with the same arguments changes nothing. */
  lemma FilterEventsIdempotent(events: seq<Listing>, c: FilterCategory, query: string)
    ensures FilterEvents(FilterEvents(events, c, query), c, query) == FilterEvents(events, c, query)
  {
    var pc := e => InCategory(e, c);
    var pq := e => MatchesQuery(e, ToLower(query));
    if Trim(query) != [] {
      if c == All {
        FilterTwice(events, pq);
      } else {
        var once := Filter(Filter(events, pc), pq);
        FilterCommutes(Filter(events, pc), pq, pc);
        assert Filter(once, pc) == Filter(Filter(Filter(events, pc), pc), pq);
        FilterTwice(events, pc);
        FilterTwice(Filter(events, pc), pq);
      }
    } else if c != All {
      FilterTwice(events, pc);
    }
  }

  lemma {:induction false} BlankOfLower(s: string)
    ensures Blank(ToLower(s)) <==> Blank(s)
  {
    var l := ToLower(s);
    if Blank(s) {
      forall i | 0 <= i < |l| ensures IsSpace(l[i]) {
        assert !IsUpper(s[i]) by { assert IsSpace(s[i]); }
      }
    }
    if Blank(l) {
      forall i | 0 <= i < |s| ensures IsSpace(s[i]) {
        assert IsSpace(l[i]);
      }
    }
  }

  /** The search is case-insensitive: lowercasing the query first does not change the result. */
  lemma FilterEventsCaseInsensitive(events: seq<Listing>, c: FilterCategory, query: string)
    ensures FilterEvents(events, c, ToLower(query)) == FilterEvents(events, c, query)
  {
    ToLowerIdempotent(query);
    BlankOfLower(query);
    TrimEmptyIffBlank(query);
    TrimEmptyIffBlank(ToLower(query));
  }

  datatype Currency = ETH | SOL

  function CurrencyCode(c: Currency): string {
    match c
    case ETH => "ETH"
    case SOL => "SOL"
  }

  /** `formatPrice(price, currency)` */
  function FormatPrice(price: string, currency: Currency): (r: string)
    ensures |r| == |price| + 4
  {
    price + " " + CurrencyCode(currency)
  }

  /** Splits a formatted price back into its amount and currency. */
  function ParsePrice(s: string): Option<(string, Currency)> {
    if |s| < 4 || s[|s| - 4] != ' ' then None
    else if s[|s| - 3..] == "ETH" then Some((s[..|s| - 4], ETH))
    else if s[|s| - 3..] == "SOL" then Some((s[..|s| - 4], SOL))
    else None
  }

  /** Formatting loses nothing: the amount and currency can be read back. */
  lemma FormatPriceRoundTrip(price: string, currency: Currency)
    ensures ParsePrice(FormatPrice(price, currency)) == Some((price, currency))
  {
    var r := FormatPrice(price, currency);
    assert r[..|r| - 4] == price;
    assert r[|r| - 3..] == CurrencyCode(currency);
  }
}
