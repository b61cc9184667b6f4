/**
 * The plate-search screen as the object it is at run time: its five `useState`
 * variables are fields, each setter call is a field assignment, and every method
 * is proved to move the fields exactly as the matching function of PlateSearch
 * moves a `ScreenState`.
 */
module VehicleSearchScreen {
  import opened Wrappers
  import JsText
  import opened PlateSearch

  class Screen {
    var placa: string
    var veiculoData: Option<Vehicle>
    var montadora: Option<string>
    var loading: bool
    var error: Option<string>

    /** The fields as a value. */
    function Snapshot(): ScreenState
      reads this
    {
      ScreenState(placa, veiculoData, montadora, loading, error)
    }

    constructor ()
      ensures Snapshot() == Initial()
    {
      placa := "";
      veiculoData := None;
      montadora := None;
      loading := false;
      error := None;
    }

    /** `onChangeText={setPlaca}` under `maxLength={7}`. */
    method ChangeText(raw: string)
      modifies this
      ensures Snapshot() == Edit(old(Snapshot()), raw)
    {
      if |raw| <= PlateLength {
        placa := raw;
      } else {
        placa := raw[..PlateLength];
      }
    }

    /** The button's `disabled` flag, read from the fields. */
    function SearchDisabled(): (d: bool)
      reads this
      ensures d <==> Disabled(Snapshot())
      ensures d <==> loading || |placa| < PlateLength
    {
      loading || |placa| < PlateLength
    }

    /** `handleSearch` up to the `await`; it does not look at `loading` itself. */
    method StartSearch() returns (effect: Effect)
      modifies this
      ensures Started(effect, Snapshot()) == Start(old(Snapshot()))
    {
      var cleanPlaca := SearchKey(placa);
      if |cleanPlaca| < PlateLength {
        return Alert(InvalidPlateTitle, InvalidPlateMessage);
      }
      loading := true;
      error := None;
      veiculoData := None;
      effect := Request(cleanPlaca);
    }

    /** `handleSearch` after the `await`: the try/catch branch for `outcome`, then `finally`. */
    method CompleteSearch(outcome: Outcome)
      modifies this
      ensures Snapshot() == Complete(old(Snapshot()), outcome)
    {
      match outcome {
        case Success(veiculo, manufacturer) =>
          veiculoData := veiculo;
          montadora := manufacturer;
        case Failure(message) =>
          error := Some(if message.Some? && message.value != "" then message.value else NotFoundMessage);
        case Thrown =>
          error := Some(CommunicationFailureMessage);
      }
      loading := false;
    }

    /** A press of the search button: `onPress={handleSearch}` guarded by `disabled`. */
    method PressSearch() returns (effect: Effect)
      modifies this
      ensures Started(effect, Snapshot()) == Press(old(Snapshot()))
    {
      if SearchDisabled() {
        return NoEffect;
      }
      effect := StartSearch();
    }

    /** `navigateToPartSearch`: the navigation it performs, if any. */
    method NavigateToPartSearch() returns (action: Option<NavAction>)
      ensures action == Navigate(Snapshot())
      ensures action.Some? <==> veiculoData.Some? && Truthy(montadora)
      ensures action.Some? ==>
        && action.value.route == PartSearchRoute
        && action.value.placa == JsText.ToUpper(placa)
        && action.value.veiculoData == veiculoData.value
        && action.value.montadora == montadora.value
    {
      action := None;
      if veiculoData.Some? && montadora.Some? && montadora.value != "" {
        action := Some(NavAction(PartSearchRoute, JsText.ToUpper(placa), veiculoData.value, montadora.value));
      }
    }
  }
}
