/** What the screens share with the browser and with each other: the
    values kept in local storage, the user record the login stores, how an
    axios request can fail, and the clearing of one field's error. */
module Browser {
  import opened Js

  const UserKey := "user"
  const TokenKey := "token"
  const DashboardKey := "hasDashboardAccess"
  const CartCountKey := "cartCount"

  const NetworkMessage := "Network error. Please check your connection."

  /** The user record the login builds from its reply and stores as JSON.
      A field the reply lacks stays missing. */
  datatype UserData = UserData(
    id: Option<int>,
    name: Option<string>,
    email: Option<string>,
    phone: Option<string>,
    token: string)

  /** A stored value: plain text, or the JSON text of a user record (which
      is never empty, so always truthy). */
  datatype Stored = Text(text: string) | UserJson(user: UserData)
  {
    predicate Truthy()
    {
      !(this.Text? && this.text == "")
    }
  }

  type Storage = map<string, Stored>

  /** How an axios request failed: the server answered with an error
      status (with the `error` field of its body when there is one), no
      answer came, or the request was never sent. */
  datatype RequestFailure = ServerReplied(status: int, error: Option<string>) | NoReply | NotSent

  /** A message the form shows: present and non-empty. */
  predicate Shown(message: Option<string>)
  {
    message.Some? && message.value != ""
  }

  /** `if (errors[name]) errors[name] = ""`: a shown message is blanked,
      keeping its key; an absent or blank one stays as it is. */
  function ClearedMessage(message: Option<string>): (r: Option<string>)
    ensures !Shown(r)
    ensures r.Some? <==> message.Some?
  {
    if Shown(message) then Some("") else message
  }
}
