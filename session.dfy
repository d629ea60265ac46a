/**
 * The session records the pages keep in the browser's session storage.
 * Storage itself is not modelled: a page's "stored session" is a field.
 */
module Session {

  /** `{ uuid, type: 'client', id }`: the case document id and the code the client typed or was given. */
  datatype ClientSession = ClientSession(uuid: string, kind: string, id: string)

  /** `{ uuid, email, type }` of a staff sign-in. */
  datatype StaffSession = StaffSession(uuid: string, email: string, kind: string)

  const Client := "client"
}
