/** The state the top-level component keeps and the handlers that replace it. Each
    handler's new state is given by the pure store operation it applies; each one
    also keeps the store consistent (unique ids, trimmed non-empty texts) whenever
    the ids it is given are fresh and the texts are trimmed and non-empty, as the
    dialogs hand them on. The two dialog submissions need only the fresh id. */
module App {
  import opened Records
  import opened Seqs
  import opened Text
  import opened FolderOps
  import opened Invariants
  import Forms

  class ClientStore {
    /** The folders, in display order. */
    var folders: seq<Folder>
    /** The ids of the selected clients. */
    var selected: set<string>
    /** The folder and list the add-client dialog was opened for. */
    var pendingFolder: Option<string>
    var pendingType: Option<ClientType>
    var createFolderOpen: bool
    var addClientOpen: bool

    /** The initial state: no folders, nothing selected or pending, both dialogs closed. */
    constructor()
      ensures folders == [] && selected == {}
      ensures pendingFolder == None && pendingType == None
      ensures !createFolderOpen && !addClientOpen
      ensures Consistent(folders)
    {
      folders := [];
      selected := {};
      pendingFolder := None;
      pendingType := None;
      createFolderOpen := false;
      addClientOpen := false;
    }

    /** The "Create Folder" buttons. */
    method OpenCreateFolder()
      modifies this`createFolderOpen
      ensures createFolderOpen
    {
      createFolderOpen := true;
    }

    /** The create-folder dialog's close handler. */
    method CloseCreateFolder()
      modifies this`createFolderOpen
      ensures !createFolderOpen
    {
      createFolderOpen := false;
    }

    /** handleCreateFolder, with the id and the timestamp supplied by the caller. */
    method HandleCreateFolder(name: string, id: string, now: int)
      modifies this`folders
      ensures folders == CreateFolder(old(folders), id, name, now)
      ensures old(Consistent(folders)) && old(FolderIdUnused(folders, id)) && IsTrimmedNonEmpty(name) ==>
        Consistent(folders)
    {
      if Consistent(folders) && FolderIdUnused(folders, id) && IsTrimmedNonEmpty(name) {
        CreateFolderKeepsConsistent(folders, id, name, now);
      }
      folders := CreateFolder(folders, id, name, now);
    }

    /** handleDeleteFolder; `confirm` is the answer to the confirmation prompt,
        which is only asked when the folder holds clients. */
    method HandleDeleteFolder(folderId: string, confirm: bool)
      modifies this`folders
      ensures folders == DeleteFolder(old(folders), folderId, confirm)
      ensures old(Consistent(folders)) ==> Consistent(folders)
    {
      if Consistent(folders) {
        DeleteFolderKeepsConsistent(folders, folderId, confirm);
      }
      folders := DeleteFolder(folders, folderId, confirm);
    }

    /** handleAddClient: remembers the folder and list and opens the dialog. */
    method HandleAddClient(folderId: string, t: ClientType)
      modifies this`pendingFolder, this`pendingType, this`addClientOpen
      ensures pendingFolder == Some(folderId) && pendingType == Some(t) && addClientOpen
    {
      pendingFolder := Some(folderId);
      pendingType := Some(t);
      addClientOpen := true;
    }

    /** handleSubmitClient, with the new client's id and timestamp supplied by the caller. */
    method HandleSubmitClient(data: ClientInput, id: string, now: int)
      modifies this`folders
      ensures folders == SubmitClient(old(folders), pendingFolder, pendingType, data, id, now)
      ensures old(Consistent(folders)) && old(StoreCount(folders, id)) == 0 && InputValidated(data) ==>
        Consistent(folders)
    {
      if Consistent(folders) && StoreCount(folders, id) == 0 && InputValidated(data) {
        SubmitClientKeepsConsistent(folders, pendingFolder, pendingType, data, id, now);
      }
      folders := SubmitClient(folders, pendingFolder, pendingType, data, id, now);
    }

    /** The add-client dialog's close handler: closes it and forgets the pending target. */
    method CloseAddClient()
      modifies this`addClientOpen, this`pendingFolder, this`pendingType
      ensures !addClientOpen && pendingFolder == None && pendingType == None
    {
      addClientOpen := false;
      pendingFolder := None;
      pendingType := None;
    }

    /** handleDeleteClient: removes the client from the named list and drops its id
        from the selection. */
    method HandleDeleteClient(folderId: string, clientId: string, t: ClientType)
      modifies this`folders, this`selected
      ensures folders == DeleteClient(old(folders), folderId, clientId, t)
      ensures selected == old(selected) - {clientId}
      ensures clientId !in selected
      ensures old(Consistent(folders)) ==> Consistent(folders)
    {
      if Consistent(folders) {
        DeleteClientKeepsConsistent(folders, folderId, clientId, t);
      }
      folders := DeleteClient(folders, folderId, clientId, t);
      selected := selected - {clientId};
    }

    /** handlePromoteClient. */
    method HandlePromoteClient(folderId: string, clientId: string)
      modifies this`folders
      ensures folders == Promote(old(folders), folderId, clientId)
      ensures old(Consistent(folders)) ==> Consistent(folders)
    {
      if Consistent(folders) {
        PromoteKeepsConsistent(folders, folderId, clientId);
      }
      folders := Promote(folders, folderId, clientId);
    }

    /** handleToggleClientSelection. */
    method HandleToggleClientSelection(clientId: string)
      modifies this`selected
      ensures selected == Toggle(old(selected), clientId)
    {
      if clientId in selected {
        selected := selected - {clientId};
      } else {
        selected := selected + {clientId};
      }
    }

    /** handleClearSelection. */
    method HandleClearSelection()
      modifies this`selected
      ensures selected == {}
    {
      selected := {};
    }

    /** handleDeleteSelected; `confirm` is the answer to the confirmation prompt,
        which is only asked when something is selected. A declined prompt keeps
        the selection; a confirmed delete empties it. */
    method HandleDeleteSelected(confirm: bool)
      modifies this`folders, this`selected
      ensures folders == DeleteSelected(old(folders), old(selected), confirm)
      ensures old(selected) != {} && confirm ==> selected == {}
      ensures old(selected) == {} || !confirm ==> selected == old(selected)
      ensures old(Consistent(folders)) ==> Consistent(folders)
    {
      if Consistent(folders) {
        DeleteSelectedKeepsConsistent(folders, selected, confirm);
      }
      if selected != {} && confirm {
        folders := DeleteSelected(folders, selected, confirm);
        selected := {};
      }
    }

    /** The create-folder dialog submitting into the store: a blank name changes
        nothing; otherwise the trimmed name becomes a new folder, the field is
        reset and the dialog closes. */
    method SubmitCreateFolderDialog(form: Forms.CreateFolderForm, id: string, now: int)
      modifies this`folders, this`createFolderOpen, form`folderName
      ensures var name := Forms.FolderNameToSubmit(old(form.folderName));
        && (name.None? ==> folders == old(folders) && createFolderOpen == old(createFolderOpen)
                           && form.folderName == old(form.folderName))
        && (name.Some? ==> folders == CreateFolder(old(folders), id, name.value, now) && !createFolderOpen
                           && form.folderName == "")
      ensures old(Consistent(folders)) && old(FolderIdUnused(folders, id)) ==> Consistent(folders)
    {
      var created := form.Submit();
      if created.Some? {
        HandleCreateFolder(created.value, id, now);
        CloseCreateFolder();
      }
    }

    /** The add-client dialog submitting into the store: a blank field changes
        nothing; otherwise the trimmed fields are submitted to the pending folder
        and list, the fields are reset, and the dialog closes and forgets its target. */
    method SubmitAddClientDialog(form: Forms.AddClientForm, id: string, now: int)
      modifies this`folders, this`addClientOpen, this`pendingFolder, this`pendingType
      modifies form`businessName, form`contactDetails, form`problemDescription
      ensures var data := Forms.ClientInputToSubmit(ClientInput(old(form.businessName), old(form.contactDetails), old(form.problemDescription)));
        && (data.None? ==> folders == old(folders) && addClientOpen == old(addClientOpen)
                           && pendingFolder == old(pendingFolder) && pendingType == old(pendingType)
                           && form.businessName == old(form.businessName) && form.contactDetails == old(form.contactDetails)
                           && form.problemDescription == old(form.problemDescription))
        && (data.Some? ==> folders == SubmitClient(old(folders), old(pendingFolder), old(pendingType), data.value, id, now)
                           && !addClientOpen && pendingFolder == None && pendingType == None
                           && form.businessName == [] && form.contactDetails == [] && form.problemDescription == [])
      ensures old(Consistent(folders)) && old(StoreCount(folders, id)) == 0 ==> Consistent(folders)
    {
      var added := form.Submit();
      if added.Some? {
        HandleSubmitClient(added.value, id, now);
        CloseAddClient();
      }
    }
  }
}
