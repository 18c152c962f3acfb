/** The record shapes shared by the store and the views. */
module Records {

  /** A client record; `addedAt` is a millisecond timestamp. */
  datatype Client = Client(
    id: string,
    businessName: string,
    contactDetails: string,
    problemDescription: string,
    addedAt: int)

  /** A folder owns two ordered client lists. */
  datatype Folder = Folder(
    id: string,
    name: string,
    activeClients: seq<Client>,
    potentialClients: seq<Client>,
    createdAt: int)

  datatype ClientType = Active | Potential

  /** The three text fields the add-client dialog hands to the store. */
  datatype ClientInput = ClientInput(businessName: string, contactDetails: string, problemDescription: string)

  /** The list of `f` that `t` names. */
  function ClientsOf(f: Folder, t: ClientType): seq<Client> {
    match t
    case Active => f.activeClients
    case Potential => f.potentialClients
  }

  /** `f` with the list that `t` names replaced by `cs`. */
  function WithClients(f: Folder, t: ClientType, cs: seq<Client>): (r: Folder)
    ensures ClientsOf(r, t) == cs
    ensures ClientsOf(r, Other(t)) == ClientsOf(f, Other(t))
    ensures r.id == f.id && r.name == f.name && r.createdAt == f.createdAt
  {
    match t
    case Active => f.(activeClients := cs)
    case Potential => f.(potentialClients := cs)
  }

  function Other(t: ClientType): ClientType {
    match t
    case Active => Potential
    case Potential => Active
  }

  /** Number of clients a folder holds (`activeClients.length + potentialClients.length`). */
  function ClientCount(f: Folder): nat {
    |f.activeClients| + |f.potentialClients|
  }
}
