/** The horse detail view coordinator. It holds the displayed `horse`, reads
    the `id` route parameter on activation, fetches and deletes through the
    horse service and navigates through the router. Service responses and
    router results are delivered to each method as inputs; the object keeps
    the log of what it asked of its collaborators: service requests, router
    navigations, success notifications and the messages given to its private
    `showError`. */
module HorseDetail {
  import opened Wrappers
  import opened FrontendDto
  import Decimal

  /** A call issued to the horse service. */
  datatype HorseRequest = GetById(id: JsNumber) | DeleteHorse(id: JsNumber)

  /** What activation does with the `id` route parameter. */
  datatype Gate = Fetch(id: JsNumber) | Redirect

  /** The id gate of `ngOnInit`: a present parameter whose `Number(...)`
      value is not `NaN` is fetched, anything else is redirected.
      `toNumber` is JavaScript's `Number` applied to a string. */
  function IdGate(id: Option<string>, toNumber: string -> JsNumber): (g: Gate)
    ensures g.Redirect? <==> id.None? || toNumber(id.value).NaN?
    ensures g.Fetch? ==> g.id == toNumber(id.value) && !g.id.NaN?
  {
    if id.Some? && !toNumber(id.value).NaN? then Fetch(toNumber(id.value)) else Redirect
  }

  /** `'/horses/' + Number(id)`: a horse without id gives `NaN`, an id its
      decimal digits. */
  function DetailPath(id: Option<int>): (path: string)
    ensures |path| > |"/horses/"| && path[..|"/horses/"|] == "/horses/"
  {
    "/horses/" + match id { case None => "NaN" case Some(n) => Decimal.IntToString(n) }
  }

  /** The route names the parent: its tail is `NaN` for an undefined id and
      otherwise reads back as exactly that id. */
  lemma DetailPathNamesId(id: Option<int>)
    ensures id.None? ==> DetailPath(id)[|"/horses/"|..] == "NaN"
    ensures id.Some? ==> Decimal.ParseInt(DetailPath(id)[|"/horses/"|..]) == id.value
  {
    if id.Some? {
      assert DetailPath(id)[|"/horses/"|..] == Decimal.IntToString(id.value);
      Decimal.ParseIntOfIntToString(id.value);
    }
  }

  /** Distinct parents lead to distinct detail routes. */
  lemma DetailPathInjective(id1: Option<int>, id2: Option<int>)
    requires DetailPath(id1) == DetailPath(id2)
    ensures id1 == id2
  {
    var p := |"/horses/"|;
    var t1 := DetailPath(id1)[p..];
    var t2 := DetailPath(id2)[p..];
    assert t1 == t2;
    if id1.Some? {
      assert t1 == Decimal.IntToString(id1.value);
    }
    if id2.Some? {
      assert t2 == Decimal.IntToString(id2.value);
    }
    if id1.Some? && id2.Some? {
      Decimal.IntToStringInjective(id1.value, id2.value);
    }
  }

  /** `formatOwnerName`: empty for a `null` or `undefined` owner (both are
      `None` here), otherwise the first and last name joined by one space. */
  function FormatOwnerName(owner: Option<Owner>): (s: string)
    ensures s == "" <==> owner.None?
    ensures owner.Some? ==> |s| == |owner.value.firstName| + 1 + |owner.value.lastName|
    ensures owner.Some? ==>
      var n := |owner.value.firstName|;
      s[..n] == owner.value.firstName && s[n] == ' ' && s[n + 1..] == owner.value.lastName
  {
    match owner
    case None => ""
    case Some(o) => o.firstName + " " + o.lastName
  }

  /** Splits a text at its first space; a text without a space is all head. */
  function SplitAtFirstSpace(s: string): (parts: (string, string))
    ensures ' ' !in parts.0
  {
    if s == [] then ("", "")
    else if s[0] == ' ' then ("", s[1..])
    else var rest := SplitAtFirstSpace(s[1..]); ([s[0]] + rest.0, rest.1)
  }

  /** The formatted owner name loses nothing when the first name has no
      space: splitting it at its first space gives back both names. */
  lemma {:induction false} FormatOwnerNameSplits(owner: Owner)
    requires ' ' !in owner.firstName
    ensures SplitAtFirstSpace(FormatOwnerName(Some(owner))) == (owner.firstName, owner.lastName)
  {
    SplitJoined(owner.firstName, owner.lastName);
  }

  lemma {:induction false} SplitJoined(first: string, last: string)
    requires ' ' !in first
    ensures SplitAtFirstSpace(first + " " + last) == (first, last)
    decreases |first|
  {
    var s := first + " " + last;
    if first != [] {
      assert s[1..] == first[1..] + " " + last;
      SplitJoined(first[1..], last);
      assert [first[0]] + first[1..] == first;
    } else {
      assert s[1..] == last;
    }
  }

  function DeletedMessage(horseName: string): string {
    "Horse " + horseName + " successfully deleted"
  }

  function DeleteFailedMessage(serverMessage: string): string {
    "Failed to delete horse: " + serverMessage
  }

  const RouterFailed := "Router failed"

  /** The navigation a successful delete makes: the list, with the transient
      state `del` set to the string `'true'`. */
  const DeletedNavigation := Navigation(["/horses"], Some(map["del" := "true"]))

  class HorseDetailComponent {
    var horse: Horse
    var requests: seq<HorseRequest>
    var navigations: seq<Navigation>
    var successes: seq<string>
    var errors: seq<string>

    /** The initial placeholder horse; `now` is the `new Date()` it takes. */
    constructor (now: Date)
      ensures horse == Horse(None, "", "", now, Female, None, None, None)
      ensures requests == [] && navigations == [] && successes == [] && errors == []
    {
      horse := Horse(None, "", "", now, Female, None, None, None);
      requests, navigations, successes, errors := [], [], [], [];
    }

    /** `ngOnInit`: exactly one fetch of `Number(id)` when the gate passes,
        otherwise one navigation to the wildcard route and no fetch.
        `response` is what the fetch delivers if it is issued. */
    method NgOnInit(id: Option<string>, toNumber: string -> JsNumber, response: Response<Horse>)
      modifies this
      ensures successes == old(successes) && errors == old(errors)
      ensures IdGate(id, toNumber).Fetch? ==>
        requests == old(requests) + [GetById(IdGate(id, toNumber).id)] &&
        navigations == old(navigations) &&
        horse == (if response.Success? then response.value else old(horse))
      ensures IdGate(id, toNumber).Redirect? ==>
        requests == old(requests) &&
        navigations == old(navigations) + [Navigation(["**"], None)] &&
        horse == old(horse)
    {
      if id != None && !toNumber(id.value).NaN? {
        GetHorse(toNumber(id.value), response);
      } else {
        navigations := navigations + [Navigation(["**"], None)];
      }
    }

    /** `goToHorse`: one navigation to the parent's detail route; a router
        that reports failure leaves the error `Router failed`. */
    method GoToHorse(parent: Horse, navigated: bool)
      modifies this
      ensures horse == old(horse) && requests == old(requests) && successes == old(successes)
      ensures navigations == old(navigations) + [Navigation([DetailPath(parent.id)], None)]
      ensures errors == old(errors) + (if navigated then [] else [RouterFailed])
    {
      navigations := navigations + [Navigation([DetailPath(parent.id)], None)];
      if !navigated {
        errors := errors + [RouterFailed];
      }
    }

    /** `deleteHorse`: one delete request. On success one notification
        naming the displayed horse and one navigation to the list carrying
        `del: 'true'`; on failure no navigation and an error with the
        server's message. The displayed horse is never changed. */
    method DeleteHorse(id: JsNumber, response: Response<Horse>, navigated: bool)
      modifies this
      ensures horse == old(horse)
      ensures requests == old(requests) + [HorseRequest.DeleteHorse(id)]
      ensures response.Success? ==>
        successes == old(successes) + [DeletedMessage(old(horse).name)] &&
        navigations == old(navigations) + [DeletedNavigation] &&
        errors == old(errors) + (if navigated then [] else [RouterFailed])
      ensures response.Failure? ==>
        successes == old(successes) &&
        navigations == old(navigations) &&
        errors == old(errors) + [DeleteFailedMessage(response.error.serverMessage)]
    {
      requests := requests + [HorseRequest.DeleteHorse(id)];
      match response
      case Success(_) =>
        successes := successes + [DeletedMessage(horse.name)];
        navigations := navigations + [DeletedNavigation];
        if !navigated {
          errors := errors + [RouterFailed];
        }
      case Failure(e) =>
        errors := errors + [DeleteFailedMessage(e.serverMessage)];
    }

    /** `getHorse`: one fetch; its data replaces the displayed horse, a
        failure leaves it as it was and is only logged. */
    method GetHorse(id: JsNumber, response: Response<Horse>)
      modifies this
      ensures requests == old(requests) + [GetById(id)]
      ensures navigations == old(navigations) && successes == old(successes) && errors == old(errors)
      ensures horse == (if response.Success? then response.value else old(horse))
    {
      requests := requests + [GetById(id)];
      if response.Success? {
        horse := response.value;
      }
    }
  }
}
