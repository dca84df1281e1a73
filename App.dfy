/** The application controller: the element search box, the load state
    machine over (currentElement, loading, error), and the rules that turn
    that state into the scene's atomic number, the background colour and
    the refresh target. The element-data fetch is an input: each load is
    given its outcome. */
module App {
  import opened Elements
  import AtomScene
  import Shells = ElectronShells
  import N = Nucleus

  /** The element loaded on mount and reloaded when nothing is loaded. */
  const InitialElement: string := "Carbon"

  /** The one error message a failed load shows. */
  const FetchFailedMessage: string := "Failed to fetch element data. Please try a valid element name (e.g., Gold, Oxygen)."

  const NobleColor: string := "#cc00ff"
  const MetalColor: string := "#00ccff"
  const DefaultColor: string := "#33ff88"

  /** The scene's atomic number when no element gives one (carbon). */
  const FallbackAtomicNumber: int := 6

  /** How the element-data fetch of one load ends. */
  datatype FetchOutcome = Fetched(data: ElementInfo) | FetchFailed

  // ---------------------------------------------------------------------
  // String.prototype.trim

  /** The characters trim removes: ECMAScript WhiteSpace (tab, vertical
      tab, form feed, space, no-break space, byte order mark and the Zs
      space separators) and LineTerminator (LF, CR, U+2028, U+2029). */
  predicate IsWhiteSpace(c: char)
  {
    var u := c as int;
    u == 0x09 || u == 0x0A || u == 0x0B || u == 0x0C || u == 0x0D || u == 0x20 || u == 0xA0
    || u == 0x1680 || (0x2000 <= u <= 0x200A) || u == 0x2028 || u == 0x2029 || u == 0x202F
    || u == 0x205F || u == 0x3000 || u == 0xFEFF
  }

  /** s without its leading white space. */
  function TrimStart(s: string): (r: string)
    ensures |r| <= |s| && r == s[|s| - |r|..]
    ensures forall i :: 0 <= i < |s| - |r| ==> IsWhiteSpace(s[i])
    ensures r != [] ==> !IsWhiteSpace(r[0])
  {
    if s != [] && IsWhiteSpace(s[0]) then TrimStart(s[1..]) else s
  }

  /** s without its trailing white space. */
  function TrimEnd(s: string): (r: string)
    ensures |r| <= |s| && r == s[..|r|]
    ensures forall i :: |r| <= i < |s| ==> IsWhiteSpace(s[i])
    ensures r != [] ==> !IsWhiteSpace(r[|r| - 1])
  {
    if s != [] && IsWhiteSpace(s[|s| - 1]) then TrimEnd(s[..|s| - 1]) else s
  }

  function Trim(s: string): string
  {
    TrimEnd(TrimStart(s))
  }

  /** A string trims to the empty string exactly when it is all white space. */
  lemma TrimEmptyIff(s: string)
    ensures Trim(s) == [] <==> forall i :: 0 <= i < |s| ==> IsWhiteSpace(s[i])
  {
  }

  /** The search submit guard: the name to load, if any. The guard tests
      the trimmed term but the load receives the term as typed, so a search
      loads exactly when the term has a character that is not white space. */
  function SearchTarget(searchTerm: string): (target: Option<string>)
    ensures target.Some? <==> exists i :: 0 <= i < |searchTerm| && !IsWhiteSpace(searchTerm[i])
    ensures target.Some? ==> target.value == searchTerm
  {
    TrimEmptyIff(searchTerm);
    if Trim(searchTerm) != [] then Some(searchTerm) else None
  }

  // ---------------------------------------------------------------------
  // String.prototype.includes

  /** sub occurs in s starting at index i. */
  ghost predicate OccursAt(s: string, sub: string, i: int)
  {
    0 <= i && i + |sub| <= |s| && s[i..i + |sub|] == sub
  }

  /** includes, by scanning s from the left: it finds sub exactly when sub
      occurs somewhere in s. */
  function Contains(s: string, sub: string): (found: bool)
    ensures found <==> exists i :: OccursAt(s, sub, i)
    decreases |s|
  {
    OccursInTail(s, sub);
    (|sub| <= |s| && s[..|sub|] == sub) || (s != [] && Contains(s[1..], sub))
  }

  /** sub occurs in s exactly when it occurs at index 0 or, for a non-empty
      s, somewhere in s[1..]. */
  lemma OccursInTail(s: string, sub: string)
    ensures (exists i :: OccursAt(s, sub, i)) <==>
              OccursAt(s, sub, 0) || (s != [] && exists j :: OccursAt(s[1..], sub, j))
  {
    if s != [] {
      if j :| OccursAt(s[1..], sub, j) {
        assert s[1..][j..j + |sub|] == s[j + 1..j + 1 + |sub|];
        assert OccursAt(s, sub, j + 1);
      }
      if i :| OccursAt(s, sub, i) && i > 0 {
        assert s[1..][i - 1..i - 1 + |sub|] == s[i..i + |sub|];
        assert OccursAt(s[1..], sub, i - 1);
      }
    }
  }

  // ---------------------------------------------------------------------
  // Rules over the loaded element

  /** The background colour: Noble gases purple, else metals blue, else
      green, also when nothing is loaded. */
  function ThemeColor(current: Option<ElementInfo>): (c: string)
    ensures c == NobleColor <==> current.Some? && exists i :: OccursAt(current.value.category, "Noble", i)
    ensures c == MetalColor <==>
              && current.Some?
              && (forall i :: !OccursAt(current.value.category, "Noble", i))
              && (exists i :: OccursAt(current.value.category, "Metal", i))
    ensures c == DefaultColor <==>
              current.None? ||
              ((forall i :: !OccursAt(current.value.category, "Noble", i))
               && (forall i :: !OccursAt(current.value.category, "Metal", i)))
  {
    match current
    case None => DefaultColor
    case Some(e) =>
      if Contains(e.category, "Noble") then NobleColor
      else if Contains(e.category, "Metal") then MetalColor
      else DefaultColor
  }

  /** The atomic number handed to the scene: the loaded element's, unless
      there is none or it is 0, which are falsy; then carbon's. */
  function SceneAtomicNumber(current: Option<ElementInfo>): (z: int)
    ensures z != 0
    ensures current.Some? && current.value.atomicNumber != 0 ==> z == current.value.atomicNumber
    ensures current.None? || current.value.atomicNumber == 0 ==> z == FallbackAtomicNumber
  {
    if current.Some? && current.value.atomicNumber != 0 then current.value.atomicNumber
    else FallbackAtomicNumber
  }

  /** With no usable element the scene shows carbon: 6 protons, 7 neutrons
      and 6 electrons, 2 in the first shell and 4 in the second. */
  lemma FallbackScene(current: Option<ElementInfo>, speed: real, draw: nat -> real)
    requires current.None? || current.value.atomicNumber == 0
    ensures var z := SceneAtomicNumber(current);
            var s := AtomScene.SceneOf(z, speed, draw);
            && z == 6
            && N.CountKind(s.nucleus, N.Proton) == 6
            && N.CountKind(s.nucleus, N.Neutron) == 7
            && |s.electrons| == 6
            && Shells.InShell(z, 0) == 2 && Shells.InShell(z, 1) == 4
  {
    AtomScene.SceneComposition(6, speed, draw);
    AtomScene.NeutronEstimateClosedForm(6);
    Shells.CapacityTable();
  }

  /** The name the refresh button reloads: the loaded element's name, unless
      there is none or it is empty, which is falsy; then carbon. */
  function RefreshTarget(current: Option<ElementInfo>): (name: string)
    ensures name != []
    ensures current.Some? && current.value.name != [] ==> name == current.value.name
    ensures current.None? || current.value.name == [] ==> name == InitialElement
  {
    if current.Some? && current.value.name != [] then current.value.name else InitialElement
  }

  // ---------------------------------------------------------------------
  // The load state machine

  /** The application's state. `requests` records, in order, the names the
      loads asked the element-data service for. */
  class AppState {
    var searchTerm: string
    var currentElement: Option<ElementInfo>
    var loading: bool
    var error: Option<string>
    var simulationSpeed: real
    ghost var requests: seq<string>

    /** The only error ever shown is the fetch failure message, and no
        error is shown while a load is in flight. */
    ghost predicate Valid()
      reads this
    {
      && (error.Some? ==> error.value == FetchFailedMessage)
      && (loading ==> error.None?)
    }

    /** The state before mount: the search box holds "Carbon", nothing is
        loaded, no load is running and the speed is 1. */
    constructor ()
      ensures searchTerm == InitialElement && currentElement.None? && !loading && error.None?
      ensures simulationSpeed == AtomScene.DefaultSpeed && requests == []
      ensures Valid()
    {
      searchTerm := InitialElement;
      currentElement := None;
      loading := false;
      error := None;
      simulationSpeed := 1.0;
      requests := [];
    }

    /** The start of a load: loading is set and the error cleared before
        the fetch is made. */
    method BeginLoad(name: string)
      requires Valid()
      modifies this
      ensures Valid()
      ensures loading && error.None? && requests == old(requests) + [name]
      ensures currentElement == old(currentElement) && searchTerm == old(searchTerm)
      ensures simulationSpeed == old(simulationSpeed)
    {
      loading := true;
      error := None;
      requests := requests + [name];
    }

    /** The end of a load: a fetched element replaces the current one; a
        failure keeps it and shows the failure message; either way loading
        ends. */
    method CompleteLoad(outcome: FetchOutcome)
      requires Valid()
      modifies this
      ensures Valid()
      ensures !loading
      ensures outcome.Fetched? ==> currentElement == Some(outcome.data) && error == old(error)
      ensures outcome.FetchFailed? ==> currentElement == old(currentElement) && error == Some(FetchFailedMessage)
      ensures searchTerm == old(searchTerm) && requests == old(requests)
      ensures simulationSpeed == old(simulationSpeed)
    {
      match outcome {
        case Fetched(data) =>
          currentElement := Some(data);
        case FetchFailed =>
          error := Some(FetchFailedMessage);
      }
      loading := false;
    }

    /** A whole load of `name` whose fetch ends with `outcome`. */
    method LoadElement(name: string, outcome: FetchOutcome)
      requires Valid()
      modifies this
      ensures Valid()
      ensures !loading && requests == old(requests) + [name]
      ensures outcome.Fetched? ==> currentElement == Some(outcome.data) && error.None?
      ensures outcome.FetchFailed? ==> currentElement == old(currentElement) && error == Some(FetchFailedMessage)
      ensures searchTerm == old(searchTerm) && simulationSpeed == old(simulationSpeed)
    {
      BeginLoad(name);
      CompleteLoad(outcome);
    }

    /** The mount effect: load carbon. */
    method Mount(outcome: FetchOutcome)
      requires Valid()
      modifies this
      ensures Valid()
      ensures !loading && requests == old(requests) + [InitialElement]
      ensures outcome.Fetched? ==> currentElement == Some(outcome.data) && error.None?
      ensures outcome.FetchFailed? ==> currentElement == old(currentElement) && error == Some(FetchFailedMessage)
      ensures searchTerm == old(searchTerm) && simulationSpeed == old(simulationSpeed)
    {
      LoadElement(InitialElement, outcome);
    }

    /** Typing in the search box. */
    method SetSearchTerm(value: string)
      requires Valid()
      modifies this
      ensures Valid()
      ensures searchTerm == value
      ensures currentElement == old(currentElement) && loading == old(loading) && error == old(error)
      ensures requests == old(requests) && simulationSpeed == old(simulationSpeed)
    {
      searchTerm := value;
    }

    /** Submitting the search: a load of the term as typed when it is not
        all white space; otherwise nothing happens. */
    method HandleSearch(outcome: FetchOutcome)
      requires Valid()
      modifies this
      ensures Valid()
      ensures searchTerm == old(searchTerm) && simulationSpeed == old(simulationSpeed)
      ensures SearchTarget(searchTerm).None? ==>
                && requests == old(requests) && currentElement == old(currentElement)
                && loading == old(loading) && error == old(error)
      ensures SearchTarget(searchTerm).Some? ==> !loading && requests == old(requests) + [searchTerm]
      ensures SearchTarget(searchTerm).Some? && outcome.Fetched? ==>
                currentElement == Some(outcome.data) && error.None?
      ensures SearchTarget(searchTerm).Some? && outcome.FetchFailed? ==>
                currentElement == old(currentElement) && error == Some(FetchFailedMessage)
    {
      if Trim(searchTerm) != [] {
        LoadElement(searchTerm, outcome);
      }
    }

    /** The refresh button: reload the current element, or carbon. */
    method Refresh(outcome: FetchOutcome)
      requires Valid()
      modifies this
      ensures Valid()
      ensures !loading && requests == old(requests) + [RefreshTarget(old(currentElement))]
      ensures outcome.Fetched? ==> currentElement == Some(outcome.data) && error.None?
      ensures outcome.FetchFailed? ==> currentElement == old(currentElement) && error == Some(FetchFailedMessage)
      ensures searchTerm == old(searchTerm) && simulationSpeed == old(simulationSpeed)
    {
      LoadElement(RefreshTarget(currentElement), outcome);
    }
  }

  /** A session: mount loads an element; then a search for a blank term
      does nothing, and a failed search for another term keeps the element
      on screen with the failure message. */
  method FailedSearchKeepsElement(loaded: ElementInfo, blank: string, term: string) returns (app: AppState)
    requires SearchTarget(blank).None? && SearchTarget(term).Some?
    ensures app.currentElement == Some(loaded)
    ensures app.error == Some(FetchFailedMessage) && !app.loading
    ensures app.requests == [InitialElement, term]
  {
    app := new AppState();
    app.Mount(Fetched(loaded));
    app.SetSearchTerm(blank);
    app.HandleSearch(FetchFailed);
    app.SetSearchTerm(term);
    app.HandleSearch(FetchFailed);
  }
}
