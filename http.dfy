/** The status codes and bodies the endpoints answer with. */
module Http {

  import opened Tokens

  /** The account fields a login response exposes: never the password digest. */
  datatype PublicUser = PublicUser(id: nat, name: string, email: string)

  /** The bodies the handlers send, one constructor per shape. */
  datatype Body =
    | Text(text: string)                                         // res.send(text)
    | Message(message: string)                                   // { message }
    | MessageAndFields(message: string, fields: seq<string>)     // { message, errors }
    | MessageAndError(message: string, error: string)            // { message, error }
    | LoginBody(message: string, token: Jwt, user: PublicUser)   // { message, token, user }
    | FieldErrors(fields: seq<string>)                           // { errors }
    | Failure(error: string, details: string)                    // { error, details }
    | Success                                                    // { success: true }

  datatype Response = Response(status: nat, body: Body)
}
