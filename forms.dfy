/** The two dialogs that gather input for the store: each holds its text fields,
    takes edits, and on submit either hands on the trimmed values and resets, or
    ignores the submit. */
module Forms {
  import opened Text
  import opened Records
  import opened Seqs
  import Invariants

  // ------------------------------------------------------------------
  // The create-folder dialog
  // ------------------------------------------------------------------

  /** What submitting the create-folder dialog hands on: the trimmed name, or
      nothing when the name is blank. */
  function FolderNameToSubmit(name: string): (r: Option<string>)
    ensures r.None? <==> AllSpace(name)
    ensures r.Some? ==> IsTrimmedNonEmpty(r.value)
  {
    var t := Trim(name);
    if t != [] then
      TrimmedIsTrimmedNonEmpty(name);
      Some(t)
    else
      None
  }

  /** The name handed on is what was typed minus white space at its two ends. */
  lemma SubmittedNameIsTyped(name: string)
    requires FolderNameToSubmit(name).Some?
    ensures exists i, j ::
      && 0 <= i <= j <= |name|
      && FolderNameToSubmit(name).value == name[i..j]
      && AllSpace(name[..i]) && AllSpace(name[j..])
  {
    var i, j := TrimIsSlice(name);
  }

  /** Typing the created name again would create the same name. */
  lemma SubmittedNameIsStable(name: string)
    requires FolderNameToSubmit(name).Some?
    ensures FolderNameToSubmit(FolderNameToSubmit(name).value) == FolderNameToSubmit(name)
  {
    TrimIdempotent(name);
  }

  /** The state of the create-folder dialog. */
  class CreateFolderForm {
    var folderName: string

    /** The dialog starts with an empty name. */
    constructor()
      ensures folderName == ""
    {
      folderName := "";
    }

    /** The name input's change handler. */
    method Edit(value: string)
      modifies this`folderName
      ensures folderName == value
    {
      folderName := value;
    }

    /** The submit button is disabled exactly when a submit would be ignored. */
    function SubmitDisabled(): (r: bool)
      reads this`folderName
      ensures r <==> FolderNameToSubmit(folderName).None?
    {
      Trim(folderName) == []
    }

    /** handleSubmit: a blank name changes nothing and hands nothing on; otherwise
        the trimmed name is handed on and the field is reset. */
    method Submit() returns (created: Option<string>)
      modifies this`folderName
      ensures created == FolderNameToSubmit(old(folderName))
      ensures created.None? ==> folderName == old(folderName)
      ensures created.Some? ==> folderName == ""
    {
      created := FolderNameToSubmit(folderName);
      if created.Some? {
        folderName := "";
      }
    }
  }

  // ------------------------------------------------------------------
  // The add-client dialog
  // ------------------------------------------------------------------

  /** What submitting the add-client dialog hands on: the three trimmed fields,
      or nothing when any of them is blank. */
  function ClientInputToSubmit(input: ClientInput): (r: Option<ClientInput>)
    ensures r.None? <==>
      AllSpace(input.businessName) || AllSpace(input.contactDetails) || AllSpace(input.problemDescription)
    ensures r.Some? ==> Invariants.InputValidated(r.value)
    ensures r.Some? ==> r.value == ClientInput(Trim(input.businessName), Trim(input.contactDetails), Trim(input.problemDescription))
  {
    var b := Trim(input.businessName);
    var c := Trim(input.contactDetails);
    var p := Trim(input.problemDescription);
    if b != [] && c != [] && p != [] then
      TrimmedIsTrimmedNonEmpty(input.businessName);
      TrimmedIsTrimmedNonEmpty(input.contactDetails);
      TrimmedIsTrimmedNonEmpty(input.problemDescription);
      Some(ClientInput(b, c, p))
    else
      None
  }

  /** Submitting what was handed on would hand on the same values again. */
  lemma SubmittedInputIsStable(input: ClientInput)
    requires ClientInputToSubmit(input).Some?
    ensures ClientInputToSubmit(ClientInputToSubmit(input).value) == ClientInputToSubmit(input)
  {
    TrimIdempotent(input.businessName);
    TrimIdempotent(input.contactDetails);
    TrimIdempotent(input.problemDescription);
  }

  /** The state of the add-client dialog. */
  class AddClientForm {
    var businessName: string
    var contactDetails: string
    var problemDescription: string

    /** All three fields start empty. */
    constructor()
      ensures businessName == "" && contactDetails == "" && problemDescription == ""
    {
      businessName := "";
      contactDetails := "";
      problemDescription := "";
    }

    method EditBusinessName(value: string)
      modifies this`businessName
      ensures businessName == value
    {
      businessName := value;
    }

    method EditContactDetails(value: string)
      modifies this`contactDetails
      ensures contactDetails == value
    {
      contactDetails := value;
    }

    method EditProblemDescription(value: string)
      modifies this`problemDescription
      ensures problemDescription == value
    {
      problemDescription := value;
    }

    /** The submit button is disabled exactly when a submit would be ignored. */
    function SubmitDisabled(): (r: bool)
      reads this
      ensures r <==> ClientInputToSubmit(ClientInput(businessName, contactDetails, problemDescription)).None?
    {
      Trim(businessName) == [] || Trim(contactDetails) == [] || Trim(problemDescription) == []
    }

    /** handleSubmit: with a blank field nothing changes and nothing is handed on;
        otherwise the trimmed fields are handed on and all three are reset. */
    method Submit() returns (added: Option<ClientInput>)
      modifies this`businessName, this`contactDetails, this`problemDescription
      ensures added == ClientInputToSubmit(ClientInput(old(businessName), old(contactDetails), old(problemDescription)))
      ensures added.None? ==>
        businessName == old(businessName) && contactDetails == old(contactDetails)
        && problemDescription == old(problemDescription)
      ensures added.Some? ==> businessName == [] && contactDetails == [] && problemDescription == []
    {
      added := ClientInputToSubmit(ClientInput(businessName, contactDetails, problemDescription));
      if added.Some? {
        businessName, contactDetails, problemDescription := [], [], [];
      }
    }
  }
}
