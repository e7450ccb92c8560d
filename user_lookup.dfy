/** `userFromSocket` (src/lib/util/userFromSocket.ts): resolve the `userid`
    header of a connection to a registered user or to an error object. */
module UserLookup {
  import opened Basics
  import opened Session

  /** Either the registered user, or the error object the source returns:
      its status, the key its text is stored under, and the text. */
  datatype Lookup = Found(user: User) | ErrorObject(status: string, key: string, text: string)

  /** A missing or empty id is refused before the registry is consulted (and
      that error object spells its key `nessage`); an unregistered id is
      refused with "user does not exist"; a registered id yields exactly its
      registry entry. Being a function, it never changes `usersMap`. */
  function UserFromSocket(server: Server, userid: Option<string>): (r: Lookup)
    reads server
    ensures r.Found? <==> Truthy(userid) && userid in server.usersMap
    ensures r.Found? ==> r.user == server.usersMap[userid]
    ensures !Truthy(userid) ==> r == ErrorObject("error", "nessage", "userid not provided or found")
    ensures Truthy(userid) && userid !in server.usersMap ==> r == ErrorObject("error", "message", "user does not exist")
  {
    if !Truthy(userid) then
      ErrorObject("error", "nessage", "userid not provided or found")
    else if userid !in server.usersMap then
      ErrorObject("error", "message", "user does not exist")
    else
      Found(server.usersMap[userid])
  }

  /** The answer for a missing or empty id does not depend on which users
      are registered. */
  lemma MissingIdIgnoresRegistry(a: Server, b: Server, userid: Option<string>)
    requires !Truthy(userid)
    ensures UserFromSocket(a, userid) == UserFromSocket(b, userid)
    ensures UserFromSocket(a, userid).key != "message"
  {
  }
}
