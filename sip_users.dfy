/** The user records of the SIP authentication service and its HTTP errors. */
module SipUsers {
  import opened Wrappers

  /**
   * A stored user. `password` and `sipPassword` hold hashes, never the
   * plaintext; `sipPassword` and `sipUsername` are filled in right after
   * the record is created. `updatedAt` is the time of the latest write.
   */
  datatype SipUser = SipUser(
    id: string,
    email: string,
    password: string,
    name: Option<string>,
    role: string,
    isActive: bool,
    sipUsername: Option<string>,
    sipPassword: Option<string>,
    createdAt: int,
    updatedAt: int)

  /** An error the handlers pass to `next`: an HTTP status and a message. */
  datatype HttpError = HttpError(status: nat, message: string)

  /** The payload `jwt.sign` puts into a login token. */
  datatype TokenPayload = TokenPayload(userId: string, email: string, role: string)

  /** The user table is keyed by id, and no two users share an email. */
  ghost predicate WellFormed(users: map<string, SipUser>) {
    && (forall id :: id in users ==> users[id].id == id)
    && (forall a, b :: a in users && b in users && users[a].email == users[b].email ==> a == b)
  }

  predicate EmailTaken(users: map<string, SipUser>, email: string) {
    exists id :: id in users && users[id].email == email
  }

  /** Adding a record under its own, unused id with an unused email keeps the table well formed. */
  lemma InsertKeepsWellFormed(users: map<string, SipUser>, u: SipUser)
    requires WellFormed(users) && u.id !in users && !EmailTaken(users, u.email)
    ensures WellFormed(users[u.id := u])
  {
  }
}
