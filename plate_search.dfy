/**
 * The plate-search screen as a state machine over plain values.
 *
 * `ScreenState` holds the screen's five state variables (`placa`, `veiculoData`,
 * `montadora`, `loading`, `error`). The asynchronous `handleSearch` is split at its
 * `await` into `Start` (validation and reset, ending in the request to the catalog
 * service) and `Complete` (the three ways the service call can end, then `finally`).
 * The class in module VehicleSearchScreen is proved to follow these functions.
 */
module PlateSearch {
  import opened Wrappers
  import JsText

  /** Brazilian plates, old and Mercosul formats alike, have seven characters. */
  const PlateLength := 7

  const InvalidPlateTitle := "Placa Inválida"
  const InvalidPlateMessage := "Placa deve ter 7 caracteres."
  const NotFoundMessage := "Veículo não encontrado. Verifique a placa."
  const CommunicationFailureMessage := "Falha na comunicação com o catálogo. Tente novamente."
  const PartSearchRoute := "PartSearch"

  /** The vehicle record the catalog returns; the screen passes it on untouched. */
  datatype Vehicle = Vehicle(modelo: string, details: map<string, string>)

  /**
   * How the awaited `searchVehicle(cleanPlaca)` ends: a response with `success`
   * true (whose `veiculo` and `montadora` may be missing), a response with
   * `success` false (whose `message` may be missing), or a thrown exception.
   */
  datatype Outcome =
    | Success(veiculo: Option<Vehicle>, montadora: Option<string>)
    | Failure(message: Option<string>)
    | Thrown

  datatype ScreenState = ScreenState(
    placa: string,
    veiculoData: Option<Vehicle>,
    montadora: Option<string>,
    loading: bool,
    error: Option<string>)

  /** What a press of the search button does outside the screen's own state. */
  datatype Effect =
    | NoEffect                              // the button is disabled
    | Alert(title: string, message: string) // `Alert.alert`, no request
    | Request(key: string)                  // `searchVehicle(key)` is called

  datatype Started = Started(effect: Effect, state: ScreenState)

  /** The argument of `navigation.navigate('PartSearch', {...})`. */
  datatype NavAction = NavAction(route: string, placa: string, veiculoData: Vehicle, montadora: string)

  /** JavaScript truthiness of a nullable string: present and not empty. */
  predicate Truthy(s: Option<string>) {
    s.Some? && s.value != ""
  }

  /** The state every reachable screen is in. */
  predicate Valid(s: ScreenState) {
    && |s.placa| <= PlateLength
    && (s.loading ==> s.veiculoData.None? && s.error.None?)
    && !(s.veiculoData.Some? && s.error.Some?)
    && (s.error.Some? ==> s.error.value != "")
  }

  /** The `useState` initial values. */
  function Initial(): (s: ScreenState)
    ensures Valid(s) && !s.loading && s.placa == ""
    ensures s.veiculoData.None? && s.montadora.None? && s.error.None?
  {
    ScreenState("", None, None, false, None)
  }

  /** `placa.trim().toUpperCase()`: the key sent to the catalog. */
  function SearchKey(placa: string): (k: string)
    ensures |k| <= |placa|
    ensures JsText.Trimmed(k) && JsText.NoLowerCase(k)
  {
    JsText.UpperKeepsTrimmed(JsText.Trim(placa));
    JsText.ToUpper(JsText.Trim(placa))
  }

  /** `onChangeText={setPlaca}` on an input with `maxLength={7}`: longer text is cut to its first seven characters. */
  function Edit(s: ScreenState, raw: string): (r: ScreenState)
    ensures |r.placa| <= PlateLength && r.placa <= raw
    ensures |raw| <= PlateLength ==> r.placa == raw
    ensures |raw| > PlateLength ==> r.placa == raw[..PlateLength]
    ensures r == s.(placa := r.placa)
    ensures Valid(s) ==> Valid(r)
  {
    s.(placa := if |raw| <= PlateLength then raw else raw[..PlateLength])
  }

  /** `disabled={loading || placa.length < 7}`: the only guard against a second search. */
  function Disabled(s: ScreenState): (d: bool)
    ensures d <==> s.loading || |s.placa| < PlateLength
  {
    s.loading || |s.placa| < PlateLength
  }

  /**
   * `handleSearch` up to its `await`: a key shorter than seven characters raises the
   * alert and changes nothing; otherwise `loading` is set, `error` and `veiculoData`
   * are cleared (`montadora` is kept) and the key is sent to the catalog.
   */
  function Start(s: ScreenState): (r: Started)
    ensures r.effect != NoEffect
    ensures r.effect.Alert? <==> |SearchKey(s.placa)| < PlateLength
    ensures r.effect.Alert? ==> r.state == s && r.effect == Alert(InvalidPlateTitle, InvalidPlateMessage)
    ensures r.effect.Request? ==>
      && r.effect.key == SearchKey(s.placa) && |r.effect.key| >= PlateLength
      && r.state == s.(loading := true, error := None, veiculoData := None)
    ensures Valid(s) ==> Valid(r.state)
  {
    var key := SearchKey(s.placa);
    if |key| < PlateLength then
      Started(Alert(InvalidPlateTitle, InvalidPlateMessage), s)
    else
      Started(Request(key), s.(loading := true, error := None, veiculoData := None))
  }

  /** `data.message || 'Veículo não encontrado…'`. */
  function FailureText(message: Option<string>): (t: string)
    ensures t != ""
    ensures Truthy(message) ==> t == message.value
    ensures !Truthy(message) ==> t == NotFoundMessage
  {
    if Truthy(message) then message.value else NotFoundMessage
  }

  /**
   * `handleSearch` after its `await`: the try/catch branch for the outcome, then
   * the `finally` that always clears `loading`.
   */
  function Complete(s: ScreenState, o: Outcome): (r: ScreenState)
    ensures !r.loading && r.placa == s.placa
    ensures o.Success? ==> r.veiculoData == o.veiculo && r.montadora == o.montadora && r.error == s.error
    ensures !o.Success? ==> r.veiculoData == s.veiculoData && r.montadora == s.montadora
    ensures o.Failure? ==> r.error == Some(FailureText(o.message))
    ensures o.Thrown? ==> r.error == Some(CommunicationFailureMessage)
    ensures Valid(s) && s.loading ==> Valid(r)
  {
    match o
    case Success(veiculo, montadora) => s.(veiculoData := veiculo, montadora := montadora, loading := false)
    case Failure(message) => s.(error := Some(FailureText(message)), loading := false)
    case Thrown => s.(error := Some(CommunicationFailureMessage), loading := false)
  }

  /** A press of the search button: nothing while it is disabled, otherwise `handleSearch`. */
  function Press(s: ScreenState): (r: Started)
    ensures s.loading ==> r == Started(NoEffect, s)
    ensures r.effect == NoEffect <==> s.loading || |s.placa| < PlateLength
    ensures r.effect == NoEffect ==> r.state == s
    ensures !Disabled(s) ==> r == Start(s)
    ensures r.effect.Request? ==> !s.loading && r.state.loading
    ensures Valid(s) ==> Valid(r.state)
  {
    if Disabled(s) then Started(NoEffect, s) else Start(s)
  }

  /**
   * `navigateToPartSearch`: navigates only when a vehicle and a (non-empty)
   * manufacturer are held, carrying the upper-cased but untrimmed plate.
   */
  function Navigate(s: ScreenState): (a: Option<NavAction>)
    ensures a.Some? <==> s.veiculoData.Some? && Truthy(s.montadora)
    ensures a.Some? ==> a.value == NavAction(PartSearchRoute, JsText.ToUpper(s.placa), s.veiculoData.value, s.montadora.value)
  {
    if s.veiculoData.Some? && Truthy(s.montadora) then
      Some(NavAction(PartSearchRoute, JsText.ToUpper(s.placa), s.veiculoData.value, s.montadora.value))
    else
      None
  }

  // ---------------------------------------------------------------------------
  // Properties of the state machine
  // ---------------------------------------------------------------------------

  /** The key is the typed plate with its outer white space cut off, upper-cased. */
  lemma SearchKeyIsUpperMiddle(placa: string)
    ensures exists i, j :: (0 <= i <= j <= |placa|
      && SearchKey(placa) == JsText.ToUpper(placa[i..j]) && JsText.OnlySpaceOutside(placa, i, j))
  {
    var i, j :| 0 <= i <= j <= |placa| && JsText.Trim(placa) == placa[i..j] && JsText.OnlySpaceOutside(placa, i, j);
    assert SearchKey(placa) == JsText.ToUpper(placa[i..j]);
  }

  /** Normalising an already normalised key changes nothing. */
  lemma SearchKeyIdempotent(placa: string)
    ensures SearchKey(SearchKey(placa)) == SearchKey(placa)
  {
    var k := SearchKey(placa);
    JsText.TrimOfTrimmed(k);
    JsText.ToUpperIdempotent(JsText.Trim(placa));
  }

  /**
   * Because the input holds at most seven characters, a key long enough to be
   * searched is the whole typed plate upper-cased: no white space was trimmed,
   * and the plate sent on navigation is the one that was searched.
   */
  lemma SearchedKeyIsWholePlate(s: ScreenState)
    requires |s.placa| <= PlateLength
    requires Start(s).effect.Request?
    ensures JsText.Trim(s.placa) == s.placa
    ensures Start(s).effect.key == JsText.ToUpper(s.placa)
    ensures |s.placa| == PlateLength
  {
    assert |JsText.ToUpper(JsText.Trim(s.placa))| == |JsText.Trim(s.placa)|;
  }

  /** The button is no complete validation: a seven-character plate with an outer space enables it, yet the search alerts. */
  lemma EnabledButtonCanStillAlert()
    ensures var s := Initial().(placa := "ABC123 ");
      !Disabled(s) && Press(s).effect == Alert(InvalidPlateTitle, InvalidPlateMessage)
  {
    var p := "ABC123 ";
    assert !JsText.IsWhiteSpace(p[0]);
    assert JsText.LeadingSpaces(p) == 0;
    assert JsText.IsWhiteSpace(p[6]) && !JsText.IsWhiteSpace(p[5]);
    assert JsText.TrailingSpaces(p[..6]) == 0;
    assert JsText.TrailingSpaces(p) == 1;
    assert JsText.Trim(p) == p[..6];
  }

  /** A search that is started and completed, on any path, ends not loading and never holds a vehicle and an error at once. */
  lemma SearchEndsSettled(s: ScreenState, o: Outcome)
    requires Valid(s) && Start(s).effect.Request?
    ensures var r := Complete(Start(s).state, o);
      Valid(r) && !r.loading && !(r.veiculoData.Some? && r.error.Some?)
  {
  }

  /**
   * A failed search after a successful one blocks navigation, although the
   * manufacturer of the earlier vehicle is still held.
   */
  lemma StaleManufacturerBlocksNavigation(s: ScreenState, v: Vehicle, m: string, failure: Outcome)
    requires Valid(s) && m != ""
    requires Start(s).effect.Request?
    requires !failure.Success?
    ensures var found := Complete(Start(s).state, Success(Some(v), Some(m)));
      && Navigate(found).Some?
      && Start(found).effect.Request?
      && var failed := Complete(Start(found).state, failure);
        failed.montadora == Some(m) && Navigate(failed).None?
  {
  }

  /**
   * The plate stays editable after a search, and navigation carries the plate as
   * it is now, not the one that found the vehicle.
   */
  lemma NavigationUsesCurrentPlate(s: ScreenState, v: Vehicle, m: string, raw: string)
    requires m != "" && Start(s).effect.Request?
    ensures var found := Complete(Start(s).state, Success(Some(v), Some(m)));
      var a := Navigate(Edit(found, raw));
      a.Some? && a.value.veiculoData == v && a.value.placa == JsText.ToUpper(Edit(found, raw).placa)
  {
  }

  /** A successful response whose vehicle or manufacturer is missing or empty gives nothing to navigate with. */
  lemma IncompleteSuccessBlocksNavigation(s: ScreenState, o: Outcome)
    requires o.Success? && (o.veiculo.None? || !Truthy(o.montadora))
    ensures Navigate(Complete(s, o)).None?
  {
  }

  // ---------------------------------------------------------------------------
  // Sessions: the screen together with the catalog requests still in flight
  // ---------------------------------------------------------------------------

  /** What can happen to the screen: the user types, the user presses search, or a pending request settles. */
  datatype Event = Typed(raw: string) | Pressed | Settled(outcome: Outcome)

  datatype Session = Session(screen: ScreenState, inFlight: nat)

  /** One event; a response can only arrive for a request that is in flight. */
  function Step(t: Session, e: Event): Session {
    match e
    case Typed(raw) => t.(screen := Edit(t.screen, raw))
    case Pressed =>
      var r := Press(t.screen);
      Session(r.state, if r.effect.Request? then t.inFlight + 1 else t.inFlight)
    case Settled(o) =>
      if t.inFlight == 0 then t else Session(Complete(t.screen, o), t.inFlight - 1)
  }

  function Run(t: Session, events: seq<Event>): Session
    decreases |events|
  {
    if events == [] then t else Run(Step(t, events[0]), events[1..])
  }

  /** The session invariant: a valid screen, and `loading` exactly while the one permitted request is in flight. */
  predicate SessionInvariant(t: Session) {
    Valid(t.screen) && t.inFlight <= 1 && (t.inFlight == 1 <==> t.screen.loading)
  }

  lemma StepKeepsInvariant(t: Session, e: Event)
    requires SessionInvariant(t)
    ensures SessionInvariant(Step(t, e))
  {
  }

  /**
   * From the freshly mounted screen, whatever the user does and however the
   * catalog answers, at most one request is ever in flight, `loading` holds
   * exactly while it is, and the screen stays valid.
   */
  lemma {:induction false} AtMostOneRequestInFlight(events: seq<Event>)
    ensures SessionInvariant(Run(Session(Initial(), 0), events))
  {
    RunKeepsInvariant(Session(Initial(), 0), events);
  }

  lemma {:induction false} RunKeepsInvariant(t: Session, events: seq<Event>)
    requires SessionInvariant(t)
    ensures SessionInvariant(Run(t, events))
    decreases |events|
  {
    if events != [] {
      StepKeepsInvariant(t, events[0]);
      RunKeepsInvariant(Step(t, events[0]), events[1..]);
    }
  }
}
