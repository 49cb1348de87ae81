/** The owner create view coordinator. It holds the owner draft bound to the
    form and, on a valid submit, sends it to the owner service. The form's
    validity and the service response are inputs; the object keeps the log of
    create requests, router navigations and success notifications. */
module OwnerCreate {
  import opened Wrappers
  import opened FrontendDto

  /** A call issued to the owner service. */
  datatype OwnerRequest = Create(payload: Owner)

  /** The state of one bound form control. */
  datatype InputState = InputState(valid: bool, pristine: bool)

  /** An owner as the server may receive it: an email, if present, is not
      the empty string. */
  predicate EmailNormalized(owner: Owner) {
    owner.email != Some("")
  }

  /** The submit step `if (email === '') delete email`: only an empty email
      is removed, every other field is kept. */
  function NormalizeEmail(owner: Owner): (r: Owner)
    ensures EmailNormalized(r)
    ensures r.id == owner.id && r.firstName == owner.firstName && r.lastName == owner.lastName
    ensures r.email.None? <==> owner.email.None? || owner.email == Some("")
    ensures r.email.Some? ==> r.email == owner.email
    ensures EmailNormalized(owner) ==> r == owner
  {
    if owner.email == Some("") then owner.(email := None) else owner
  }

  /** `dynamicCssClassesForInput`: the single class `is-invalid`, set when
      the control has been edited and is not valid. */
  function DynamicCssClassesForInput(input: InputState): (classes: map<string, bool>)
    ensures classes.Keys == {"is-invalid"}
    ensures classes["is-invalid"] <==> !input.valid && !input.pristine
  {
    map["is-invalid" := !input.valid && !input.pristine]
  }

  /** The `submitButtonText` getter: the view only creates. */
  function SubmitButtonText(): (text: string)
    ensures text == "Create"
  {
    "Create"
  }

  function AddedMessage(firstName: string): string {
    "Owner " + firstName + " successfully added."
  }

  class OwnerCreateComponent {
    var owner: Owner
    var requests: seq<OwnerRequest>
    var navigations: seq<Navigation>
    var successes: seq<string>

    /** The draft starts with empty first name, last name and email. */
    constructor ()
      ensures owner == Owner(None, "", "", Some(""))
      ensures requests == [] && navigations == [] && successes == []
    {
      owner := Owner(None, "", "", Some(""));
      requests, navigations, successes := [], [], [];
    }

    /** `onSubmit`: an invalid form changes nothing. A valid one normalises
        the draft's email in place and issues exactly one create with it; a
        created owner is announced and the owner list is shown, a failure is
        only logged. */
    method OnSubmit(formValid: bool, response: Response<Owner>)
      modifies this
      ensures !formValid ==>
        owner == old(owner) && requests == old(requests) &&
        navigations == old(navigations) && successes == old(successes)
      ensures formValid ==>
        owner == NormalizeEmail(old(owner)) &&
        requests == old(requests) + [Create(owner)]
      ensures formValid && response.Success? ==>
        successes == old(successes) + [AddedMessage(old(owner).firstName)] &&
        navigations == old(navigations) + [Navigation(["/owners"], None)]
      ensures formValid && response.Failure? ==>
        successes == old(successes) && navigations == old(navigations)
    {
      if formValid {
        if owner.email == Some("") {
          owner := owner.(email := None);
        }
        requests := requests + [Create(owner)];
        if response.Success? {
          successes := successes + [AddedMessage(owner.firstName)];
          navigations := navigations + [Navigation(["/owners"], None)];
        }
      }
    }
  }
}
