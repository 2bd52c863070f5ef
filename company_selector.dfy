/**
 * The competitor-list editor: a list of companies, each a client or a
 * competitor, and the ticker being typed for the next competitor, changed by
 * the editor's handlers. Add refuses a sixth competitor, so a list that starts
 * with at most five keeps at most five; nothing limits the number of clients.
 */
module CompanySelector {
  import opened Wrappers
  import opened Seqs
  import opened Text

  datatype Role = Client | Competitor

  /** One entry of the list; `name` is optional in the source. */
  datatype Company = Company(ticker: string, name: Option<string>, role: Role)

  /** A `Partial<Company>`: every field that is present replaces the entry's own. */
  datatype Patch = Patch(ticker: Option<string>, name: Option<string>, role: Option<Role>)

  const MaxCompetitors: nat := 5

  /** `{ ...company, ...updates }`: every field the patch carries wins, every other field is the entry's own. */
  function Merge(c: Company, u: Patch): (m: Company)
    ensures u.ticker.Some? ==> m.ticker == u.ticker.value
    ensures u.ticker.None? ==> m.ticker == c.ticker
    ensures u.name.Some? ==> m.name == u.name
    ensures u.name.None? ==> m.name == c.name
    ensures u.role.Some? ==> m.role == u.role.value
    ensures u.role.None? ==> m.role == c.role
  {
    Company(
      if u.ticker.Some? then u.ticker.value else c.ticker,
      if u.name.Some? then u.name else c.name,
      if u.role.Some? then u.role.value else c.role)
  }

  /** Merging the same patch twice is merging it once; an empty patch changes nothing. */
  lemma MergeIdempotent(c: Company, u: Patch)
    ensures Merge(Merge(c, u), u) == Merge(c, u)
    ensures Merge(c, Patch(None, None, None)) == c
  {
  }

  predicate IsClient(c: Company) { c.role == Client }
  predicate IsCompetitor(c: Company) { c.role == Competitor }

  /** `ticker.trim() !== ''` */
  predicate HasTicker(c: Company) { !IsBlank(c.ticker) }

  /** The list the editor starts from: the given one, or a single blank client entry. */
  function InitialCompanies(initial: seq<Company>): (cs: seq<Company>)
    ensures |initial| > 0 ==> cs == initial
    ensures |initial| == 0 ==> cs == [Company("", Some(""), Client)]
  {
    if |initial| > 0 then initial else [Company("", Some(""), Client)]
  }

  /** `companies.map((company, i) => i === index ? { ...company, ...updates } : company)` */
  function UpdatedAt(cs: seq<Company>, index: int, u: Patch): (r: seq<Company>)
    ensures |r| == |cs|
    ensures 0 <= index < |cs| ==> r[index] == Merge(cs[index], u)
    ensures forall i :: 0 <= i < |cs| && i != index ==> r[i] == cs[i]
  {
    seq(|cs|, i requires 0 <= i < |cs| => if i == index then Merge(cs[i], u) else cs[i])
  }

  /** An update is a splice of the merged entry; out of range it changes nothing. */
  lemma UpdatedAtSplice(cs: seq<Company>, index: int, u: Patch)
    ensures 0 <= index < |cs| ==> UpdatedAt(cs, index, u) == cs[..index] + [Merge(cs[index], u)] + cs[index + 1..]
    ensures !(0 <= index < |cs|) ==> UpdatedAt(cs, index, u) == cs
  {
    var r := UpdatedAt(cs, index, u);
    if 0 <= index < |cs| {
      var spliced := cs[..index] + [Merge(cs[index], u)] + cs[index + 1..];
      assert |spliced| == |r|;
      forall i | 0 <= i < |cs| ensures r[i] == spliced[i] {
        if i < index {
          assert spliced[i] == cs[..index][i];
        } else if i == index {
          assert spliced[i] == Merge(cs[index], u);
        } else {
          assert spliced[i] == cs[index + 1..][i - index - 1];
        }
      }
    } else {
      assert forall i :: 0 <= i < |cs| ==> r[i] == cs[i];
    }
  }

  /** `companies.filter((_, i) => i !== index)` */
  function WithoutIndex(cs: seq<Company>, index: int): (r: seq<Company>)
    ensures 0 <= index < |cs| ==> r == cs[..index] + cs[index + 1..]
    ensures !(0 <= index < |cs|) ==> r == cs
    decreases |cs|
  {
    if cs == [] then []
    else
      var last := |cs| - 1;
      var rest := WithoutIndex(cs[..last], index);
      assert 0 <= index < last ==> cs[..last][..index] + cs[..last][index + 1..] + [cs[last]] == cs[..index] + cs[index + 1..];
      assert cs[..last] + [cs[last]] == cs;
      rest + (if last == index then [] else [cs[last]])
  }

  /** The entries of type competitor, in list order. */
  function Competitors(cs: seq<Company>): seq<Company> {
    Filter(cs, IsCompetitor)
  }

  function CompetitorCount(cs: seq<Company>): nat {
    |Competitors(cs)|
  }

  /** `competitors.length < 5`: there is room exactly when one more competitor keeps the list within five. */
  predicate CanAddMore(cs: seq<Company>): (b: bool)
    ensures b <==> CompetitorCount(cs) + 1 <= MaxCompetitors
    ensures b ==> forall c :: IsCompetitor(c) ==> CompetitorCount(cs + [c]) <= MaxCompetitors
  {
    assert forall c :: IsCompetitor(c) ==> CompetitorCount(cs + [c]) == CompetitorCount(cs) + 1 by {
      forall c | IsCompetitor(c) ensures CompetitorCount(cs + [c]) == CompetitorCount(cs) + 1 {
        AppendCompetitorCount(cs, c);
      }
    }
    CompetitorCount(cs) < MaxCompetitors
  }

  /** `companies.find(c => c.type === 'client')`: the first client entry, or none when there is no client. */
  function ClientCompany(cs: seq<Company>): (r: Option<Company>)
    ensures r.None? <==> forall i :: 0 <= i < |cs| ==> !IsClient(cs[i])
    ensures r.Some? ==> IsClient(r.value)
    ensures r.Some? ==> exists i :: FirstClientAt(cs, i) && cs[i] == r.value
  {
    Find(cs, IsClient)
  }

  /** Entry `i` is a client and no entry before it is. */
  predicate FirstClientAt(cs: seq<Company>, i: int) {
    0 <= i < |cs| && IsClient(cs[i]) && forall j :: 0 <= j < i ==> !IsClient(cs[j])
  }

  /** There is at most one first client. */
  lemma FirstClientUnique(cs: seq<Company>, i: int, k: int)
    requires FirstClientAt(cs, i) && FirstClientAt(cs, k)
    ensures i == k
  {
  }

  /** The list `saveCompanies` hands on: the entries whose trimmed ticker is not empty. */
  function ValidCompanies(cs: seq<Company>): seq<Company> {
    Filter(cs, HasTicker)
  }

  /**
   * `!clientCompany?.ticker.trim()`: Save is enabled exactly when some entry
   * is a client, every entry before it is not, and its ticker is not blank.
   */
  predicate SaveDisabled(cs: seq<Company>): (b: bool)
    ensures !b <==> exists i :: FirstClientAt(cs, i) && !IsBlank(cs[i].ticker)
  {
    var r := ClientCompany(cs);
    assert forall i, k :: FirstClientAt(cs, i) && FirstClientAt(cs, k) ==> i == k by {
      forall i, k | FirstClientAt(cs, i) && FirstClientAt(cs, k) ensures i == k {
        FirstClientUnique(cs, i, k);
      }
    }
    r.None? || IsBlank(r.value.ticker)
  }

  /**
   * The summary's client count, `clientCompany?.ticker ? 1 : 0`: one when the
   * first client's ticker is not the empty string, untrimmed.
   */
  function ShownClientCount(cs: seq<Company>): (n: nat)
    ensures n <= 1
    ensures n == 1 <==> exists i :: FirstClientAt(cs, i) && cs[i].ticker != ""
  {
    var r := ClientCompany(cs);
    assert forall i, k :: FirstClientAt(cs, i) && FirstClientAt(cs, k) ==> i == k by {
      forall i, k | FirstClientAt(cs, i) && FirstClientAt(cs, k) ensures i == k {
        FirstClientUnique(cs, i, k);
      }
    }
    if r.Some? && r.value.ticker != "" then 1 else 0
  }

  /** A client whose ticker is only spaces is counted as a selected client while Save stays disabled. */
  lemma BlankClientCountedButNotSaveable()
    ensures var cs := [Company("  ", None, Client)];
      ShownClientCount(cs) == 1 && SaveDisabled(cs) && ValidCompanies(cs) == []
  {
    var cs := [Company("  ", None, Client)];
    assert IsClient(cs[0]) && cs[0].ticker != "";
    assert AllWhitespace(cs[0].ticker);
    assert Trim(cs[0].ticker) == [];
  }

  /** The guard of `addCompetitor`. */
  predicate CanAdd(cs: seq<Company>, input: string) {
    !IsBlank(input) && CanAddMore(cs)
  }

  /**
   * The entry `addCompetitor` appends for the typed ticker: a competitor with
   * an empty name whose ticker is the input trimmed and upper-cased, so it has
   * no whitespace at either end and is blank only if the input was.
   */
  function NewCompetitor(input: string): (c: Company)
    ensures IsCompetitor(c) && c.name == Some("")
    ensures c.ticker == ToUpper(Trim(input))
    ensures Trim(c.ticker) == c.ticker
    ensures IsBlank(c.ticker) <==> IsBlank(input)
  {
    TrimToUpperCommute(Trim(input));
    TrimIdempotent(input);
    Company(ToUpper(Trim(input)), Some(""), Competitor)
  }

  /** A ticker or name edit keeps every entry's role, so the competitor count is unchanged. */
  lemma UpdateKeepsCompetitorCount(cs: seq<Company>, index: int, u: Patch)
    requires u.role.None?
    ensures CompetitorCount(UpdatedAt(cs, index, u)) == CompetitorCount(cs)
  {
    UpdatedAtSplice(cs, index, u);
    if 0 <= index < |cs| {
      var m := Merge(cs[index], u);
      assert cs == cs[..index] + [cs[index]] + cs[index + 1..];
      FilterAppend(cs[..index] + [m], cs[index + 1..], IsCompetitor);
      FilterAppend(cs[..index], [m], IsCompetitor);
      FilterAppend(cs[..index] + [cs[index]], cs[index + 1..], IsCompetitor);
      FilterAppend(cs[..index], [cs[index]], IsCompetitor);
      FilterSingleton(m, IsCompetitor);
      FilterSingleton(cs[index], IsCompetitor);
    }
  }

  /** Removing an entry never raises the competitor count. */
  lemma RemoveLowersCompetitorCount(cs: seq<Company>, index: int)
    ensures CompetitorCount(WithoutIndex(cs, index)) <= CompetitorCount(cs)
  {
    if 0 <= index < |cs| {
      assert cs == cs[..index] + [cs[index]] + cs[index + 1..];
      FilterAppend(cs[..index], cs[index + 1..], IsCompetitor);
      FilterAppend(cs[..index] + [cs[index]], cs[index + 1..], IsCompetitor);
      FilterAppend(cs[..index], [cs[index]], IsCompetitor);
    }
  }

  /** Appending one competitor raises the count by exactly one. */
  lemma AppendCompetitorCount(cs: seq<Company>, c: Company)
    requires IsCompetitor(c)
    ensures CompetitorCount(cs + [c]) == CompetitorCount(cs) + 1
  {
    FilterAppend(cs, [c], IsCompetitor);
    FilterSingleton(c, IsCompetitor);
  }

  /** The editor's whole state: the list and the pending competitor ticker. */
  datatype Editor = Editor(companies: seq<Company>, newCompetitorTicker: string)

  /** What the user can do: edit one entry, type a ticker, press Add, remove an entry. */
  datatype Event = Edit(index: int, updates: Patch) | Type(text: string) | Add | Remove(index: int)

  /**
   * The state after one handler has run. Only typing changes the input
   * without touching the list; an edit keeps the length, a removal drops at
   * most one entry, and an Add either appends the new competitor and clears
   * the input or changes nothing.
   */
  function Step(e: Editor, ev: Event): (r: Editor)
    ensures ev.Type? ==> r.companies == e.companies && r.newCompetitorTicker == ToUpper(ev.text)
    ensures ev.Edit? ==> r.companies == UpdatedAt(e.companies, ev.index, ev.updates)
    ensures ev.Edit? ==> |r.companies| == |e.companies| && r.newCompetitorTicker == e.newCompetitorTicker
    ensures ev.Remove? ==> r.companies == WithoutIndex(e.companies, ev.index)
    ensures ev.Remove? ==> |e.companies| - 1 <= |r.companies| <= |e.companies| && r.newCompetitorTicker == e.newCompetitorTicker
    ensures ev.Add? ==> r == e || (r.companies == e.companies + [NewCompetitor(e.newCompetitorTicker)] && r.newCompetitorTicker == "")
    ensures ev.Add? ==> (r == e <==> !CanAdd(e.companies, e.newCompetitorTicker))
  {
    match ev
    case Edit(index, updates) => Editor(UpdatedAt(e.companies, index, updates), e.newCompetitorTicker)
    case Type(text) => Editor(e.companies, ToUpper(text))
    case Add =>
      if CanAdd(e.companies, e.newCompetitorTicker)
      then Editor(e.companies + [NewCompetitor(e.newCompetitorTicker)], "")
      else e
    case Remove(index) => Editor(WithoutIndex(e.companies, index), e.newCompetitorTicker)
  }

  function Run(e: Editor, evs: seq<Event>): Editor
    decreases |evs|
  {
    if evs == [] then e else Run(Step(e, evs[0]), evs[1..])
  }

  /** The page only ever edits a ticker or a name, never an entry's role. */
  predicate FromPage(ev: Event) {
    ev.Edit? ==> ev.updates.role.None?
  }

  /** One handler never takes a list within the limit over it. */
  lemma StepKeepsCompetitorLimit(e: Editor, ev: Event)
    requires CompetitorCount(e.companies) <= MaxCompetitors && FromPage(ev)
    ensures CompetitorCount(Step(e, ev).companies) <= MaxCompetitors
  {
    match ev
    case Edit(index, updates) => UpdateKeepsCompetitorCount(e.companies, index, updates);
    case Type(_) =>
    case Add =>
      if CanAdd(e.companies, e.newCompetitorTicker) {
        AppendCompetitorCount(e.companies, NewCompetitor(e.newCompetitorTicker));
      }
    case Remove(index) => RemoveLowersCompetitorCount(e.companies, index);
  }

  /** No sequence of the page's events gets past five competitors. */
  lemma {:induction false} RunKeepsCompetitorLimit(e: Editor, evs: seq<Event>)
    requires CompetitorCount(e.companies) <= MaxCompetitors
    requires forall k :: 0 <= k < |evs| ==> FromPage(evs[k])
    ensures CompetitorCount(Run(e, evs).companies) <= MaxCompetitors
    decreases |evs|
  {
    if evs != [] {
      StepKeepsCompetitorLimit(e, evs[0]);
      RunKeepsCompetitorLimit(Step(e, evs[0]), evs[1..]);
    }
  }

  /** A successful Add appends one competitor at the end and clears the input; nothing before it moves. */
  lemma AddAppendsOne(e: Editor)
    requires CanAdd(e.companies, e.newCompetitorTicker)
    ensures var after := Step(e, Add).companies;
      && |after| == |e.companies| + 1
      && after[..|e.companies|] == e.companies
      && after[|e.companies|].ticker == ToUpper(Trim(e.newCompetitorTicker))
      && !IsBlank(after[|e.companies|].ticker)
      && after[|e.companies|].role == Competitor
      && Step(e, Add).newCompetitorTicker == ""
  {
  }

  /** Save emits exactly the entries with a ticker, in list order, and each of them has one. */
  lemma ValidCompaniesExact(cs: seq<Company>)
    ensures forall i :: 0 <= i < |ValidCompanies(cs)| ==> !IsBlank(ValidCompanies(cs)[i].ticker)
    ensures forall i :: 0 <= i < |cs| && !IsBlank(cs[i].ticker) ==> cs[i] in ValidCompanies(cs)
    ensures forall i :: 0 <= i <= |cs| ==> ValidCompanies(cs) == ValidCompanies(cs[..i]) + ValidCompanies(cs[i..])
  {
    forall i | 0 <= i <= |cs|
      ensures ValidCompanies(cs) == ValidCompanies(cs[..i]) + ValidCompanies(cs[i..])
    {
      assert cs == cs[..i] + cs[i..];
      FilterAppend(cs[..i], cs[i..], HasTicker);
    }
  }

  /**
   * When Save is enabled, the client the editor shows is the first client of
   * the saved list too: saving never loses or replaces the primary client.
   */
  lemma {:induction false} SavedClientIsShownClient(cs: seq<Company>)
    requires !SaveDisabled(cs)
    ensures ClientCompany(ValidCompanies(cs)) == ClientCompany(cs)
    decreases |cs|
  {
    var head := if HasTicker(cs[0]) then [cs[0]] else [];
    assert ValidCompanies(cs) == head + ValidCompanies(cs[1..]);
    if !IsClient(cs[0]) {
      assert ClientCompany(cs) == ClientCompany(cs[1..]) by {
        FindIsFirstOfFilter(cs, IsClient);
        FindIsFirstOfFilter(cs[1..], IsClient);
        assert Filter(cs, IsClient) == Filter(cs[1..], IsClient);
      }
      SavedClientIsShownClient(cs[1..]);
      FindIsFirstOfFilter(ValidCompanies(cs), IsClient);
      FindIsFirstOfFilter(ValidCompanies(cs[1..]), IsClient);
      FilterAppend(head, ValidCompanies(cs[1..]), IsClient);
      if head != [] {
        FilterSingleton(cs[0], IsClient);
      }
    } else {
      assert ClientCompany(cs) == Some(cs[0]);
      assert head == [cs[0]];
    }
  }

  /** A fresh editor with no initial list shows a blank client, and Save starts disabled. */
  lemma BlankStartDisablesSave()
    ensures ClientCompany(InitialCompanies([])) == Some(Company("", Some(""), Client))
    ensures SaveDisabled(InitialCompanies([]))
    ensures CompetitorCount(InitialCompanies([])) == 0
  {
    var cs := InitialCompanies([]);
    assert IsClient(cs[0]);
    assert AllWhitespace("");
  }

  /**
   * The page wires the client's ticker and name fields to index 0. When
   * the client is the first entry that edit reaches the shown client.
   */
  lemma ClientEditAtZeroReachesClient(cs: seq<Company>, u: Patch)
    requires |cs| > 0 && IsClient(cs[0]) && u.role.None?
    ensures ClientCompany(UpdatedAt(cs, 0, u)) == Some(Merge(cs[0], u))
  {
    assert IsClient(UpdatedAt(cs, 0, u)[0]);
  }

  /**
   * When the first entry is a competitor, the same edit lands on that
   * competitor and the shown client does not change.
   */
  lemma ClientEditAtZeroMissesClient()
    ensures var cs := [Company("MSFT", None, Competitor), Company("AAPL", None, Client)];
      var after := UpdatedAt(cs, 0, Patch(Some("X"), None, None));
      && ClientCompany(after) == Some(Company("AAPL", None, Client))
      && after[0] == Company("X", None, Competitor)
  {
    var cs := [Company("MSFT", None, Competitor), Company("AAPL", None, Client)];
    var after := UpdatedAt(cs, 0, Patch(Some("X"), None, None));
    assert !IsClient(after[0]) && IsClient(after[1]);
    assert FindIndex(after, IsClient) == Some(1) by {
      assert after[1..][0] == after[1];
    }
  }

  /** The index of the shown client: where the client fields should write. */
  function ClientIndex(cs: seq<Company>): Option<nat> {
    FindIndex(cs, IsClient)
  }

  /** The client field edit aimed at the shown client rather than at index 0. */
  function EditClient(cs: seq<Company>, u: Patch): seq<Company> {
    match ClientIndex(cs)
    case None => cs
    case Some(i) => UpdatedAt(cs, i, u)
  }

  /** Aimed at the client's own index, the edit always reaches the shown client and only it. */
  lemma EditClientReachesClient(cs: seq<Company>, u: Patch)
    requires u.role.None?
    ensures ClientCompany(cs).Some? ==> ClientCompany(EditClient(cs, u)) == Some(Merge(ClientCompany(cs).value, u))
    ensures ClientCompany(cs).None? ==> EditClient(cs, u) == cs
    ensures |EditClient(cs, u)| == |cs|
    ensures forall i :: 0 <= i < |cs| && !IsClient(cs[i]) ==> EditClient(cs, u)[i] == cs[i]
  {
    match ClientIndex(cs)
    case None =>
    case Some(k) =>
      var after := UpdatedAt(cs, k, u);
      assert IsClient(after[k]);
      assert forall j :: 0 <= j < k ==> after[j] == cs[j];
      FindIndexFirst(after, IsClient, k);
  }

  lemma {:induction false} FindIndexFirst<T>(s: seq<T>, p: T -> bool, k: nat)
    requires k < |s| && p(s[k]) && forall j :: 0 <= j < k ==> !p(s[j])
    ensures FindIndex(s, p) == Some(k)
    decreases k
  {
    if k > 0 {
      FindIndexFirst(s[1..], p, k - 1);
    }
  }

  /** The editor component: its two pieces of state and the handlers that replace them. */
  class Selector {
    var companies: seq<Company>
    var newCompetitorTicker: string

    function State(): Editor
      reads this
    {
      Editor(companies, newCompetitorTicker)
    }

    constructor (initialCompanies: seq<Company>)
      ensures companies == InitialCompanies(initialCompanies)
      ensures newCompetitorTicker == ""
    {
      companies := InitialCompanies(initialCompanies);
      newCompetitorTicker := "";
    }

    /** `updateCompany(index, updates)` */
    method UpdateCompany(index: int, updates: Patch)
      modifies this
      ensures companies == UpdatedAt(old(companies), index, updates)
      ensures newCompetitorTicker == old(newCompetitorTicker)
      ensures State() == Step(old(State()), Edit(index, updates))
      ensures updates.role.None? ==> CompetitorCount(companies) == old(CompetitorCount(companies))
    {
      if updates.role.None? {
        UpdateKeepsCompetitorCount(companies, index, updates);
      }
      companies := UpdatedAt(companies, index, updates);
    }

    /** The input's `onChange`: the pending ticker is stored upper-cased. */
    method SetNewCompetitorTicker(text: string)
      modifies this
      ensures newCompetitorTicker == ToUpper(text)
      ensures companies == old(companies)
      ensures State() == Step(old(State()), Type(text))
    {
      newCompetitorTicker := ToUpper(text);
    }

    /** `addCompetitor()` */
    method AddCompetitor()
      modifies this
      ensures CanAdd(old(companies), old(newCompetitorTicker)) ==>
        companies == old(companies) + [NewCompetitor(old(newCompetitorTicker))] && newCompetitorTicker == ""
      ensures !CanAdd(old(companies), old(newCompetitorTicker)) ==>
        companies == old(companies) && newCompetitorTicker == old(newCompetitorTicker)
      ensures old(CompetitorCount(companies)) <= MaxCompetitors ==> CompetitorCount(companies) <= MaxCompetitors
      ensures State() == Step(old(State()), Add)
    {
      if !IsBlank(newCompetitorTicker) && CompetitorCount(companies) < MaxCompetitors {
        var newCompetitor := NewCompetitor(newCompetitorTicker);
        AppendCompetitorCount(companies, newCompetitor);
        companies := companies + [newCompetitor];
        newCompetitorTicker := "";
      }
    }

    /** `removeCompetitor(index)` */
    method RemoveCompetitor(index: int)
      modifies this
      ensures companies == WithoutIndex(old(companies), index)
      ensures newCompetitorTicker == old(newCompetitorTicker)
      ensures CompetitorCount(companies) <= old(CompetitorCount(companies))
      ensures State() == Step(old(State()), Remove(index))
    {
      RemoveLowersCompetitorCount(companies, index);
      companies := WithoutIndex(companies, index);
    }

    /** `saveCompanies()`: what is handed to `onCompaniesChange`; the state is left alone. */
    method SaveCompanies() returns (valid: seq<Company>)
      ensures valid == ValidCompanies(companies)
      ensures forall i :: 0 <= i < |valid| ==> !IsBlank(valid[i].ticker)
      ensures !SaveDisabled(companies) ==> ClientCompany(valid) == ClientCompany(companies)
    {
      valid := ValidCompanies(companies);
      ValidCompaniesExact(companies);
      if !SaveDisabled(companies) {
        SavedClientIsShownClient(companies);
      }
    }
  }
}
