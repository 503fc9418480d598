/**
 * The user account endpoints (user.go): building the create, update and delete requests for
 * the account named by an accessor.
 */
module UserApi {
  import opened Wrappers
  import opened Rest
  import opened Json

  /** The account accessor: the account name and the token it authenticates with. */
  datatype User = User(userName: string, token: string)

  /** The service's wire form of the two account flags: "yes" or "no", not a JSON boolean. */
  function BoolToString(b: bool): (s: string)
    ensures s == "yes" || s == "no"
    ensures s == "yes" <==> b
  {
    if b then "yes" else "no"
  }

  /** The request record `userCreate`. */
  datatype UserCreate = UserCreate(
    token: string, userName: string, agreeTermsOfService: string, notMinor: string, thanksCode: string)

  /** The fields of `userCreate` with their json tags. */
  function UserCreateFields(c: UserCreate): (fs: seq<Field>)
    ensures |fs| == 5 && fs[4].key == "thanksCode" && fs[4].omitEmpty
    ensures forall i | 0 <= i < 4 :: !fs[i].omitEmpty
  {
    [ Field("token", JString(c.token), false),
      Field("username", JString(c.userName), false),
      Field("AgreeTermsOfService", JString(c.agreeTermsOfService), false),
      Field("NotMinor", JString(c.notMinor), false),
      Field("thanksCode", JString(c.thanksCode), true) ]
  }

  /** The request record `userUpdate`. */
  datatype UserUpdate = UserUpdate(newToken: string, thanksCode: string)

  /** The fields of `userUpdate` with their json tags. */
  function UserUpdateFields(u: UserUpdate): (fs: seq<Field>)
    ensures |fs| == 2 && fs[1].key == "thanksCode" && fs[1].omitEmpty && !fs[0].omitEmpty
  {
    [ Field("newToken", JString(u.newToken), false),
      Field("thanksCode", JString(u.thanksCode), true) ]
  }

  /** The `thanksCode` member: present exactly when the code is not empty. */
  function ThanksCodeMember(thanksCode: string): seq<Member> {
    if thanksCode == "" then [] else [Member("thanksCode", JString(thanksCode))]
  }

  /** `userCreate` is written with its keys in field order, dropping `thanksCode` exactly when it is empty. */
  lemma UserCreateEmits(c: UserCreate)
    ensures Kept(UserCreateFields(c)) ==
      [ Member("token", JString(c.token)),
        Member("username", JString(c.userName)),
        Member("AgreeTermsOfService", JString(c.agreeTermsOfService)),
        Member("NotMinor", JString(c.notMinor)) ]
      + ThanksCodeMember(c.thanksCode)
  {
    var fs := UserCreateFields(c);
    KeptUnrolled(fs);
    assert Kept(fs[4..]) == ThanksCodeMember(c.thanksCode);
    assert Kept(fs[3..]) == [Member("NotMinor", JString(c.notMinor))] + Kept(fs[4..]);
    assert Kept(fs[2..]) == [Member("AgreeTermsOfService", JString(c.agreeTermsOfService))] + Kept(fs[3..]);
    assert Kept(fs[1..]) == [Member("username", JString(c.userName))] + Kept(fs[2..]);
  }

  /** `userUpdate` is written as the new token, then `thanksCode` unless it is empty. */
  lemma UserUpdateEmits(u: UserUpdate)
    ensures Kept(UserUpdateFields(u)) == [Member("newToken", JString(u.newToken))] + ThanksCodeMember(u.thanksCode)
  {
    KeptUnrolled(UserUpdateFields(u));
  }

  /** Creating an account: POST /users with no header at all (the token travels in the body),
      and a body whose members are the token, the name and the two flags as "yes"/"no", in that
      order, followed by the thanks code when there is one. */
  function CreateRequest(u: User, agreeTermsOfService: bool, notMinor: bool, thanksCode: string): (r: Request)
    ensures r.httpMethod == Post && r.url == ApiUrl("/users") && r.header == map[]
    ensures r.body == Bytes(Encode(JObject(
      [ Member("token", JString(u.token)),
        Member("username", JString(u.userName)),
        Member("AgreeTermsOfService", JString(if agreeTermsOfService then "yes" else "no")),
        Member("NotMinor", JString(if notMinor then "yes" else "no")) ]
      + ThanksCodeMember(thanksCode))))
  {
    var create := UserCreate(u.token, u.userName, BoolToString(agreeTermsOfService), BoolToString(notMinor), thanksCode);
    UserCreateEmits(create);
    Request(Post, ApiUrl("/users"), map[], JsonBody(UserCreateFields(create)))
  }

  /** Replacing the token: PUT /users/{name}, authenticated with the current token, with a body
      holding the new token followed by the thanks code when there is one. */
  function UpdateRequest(u: User, newToken: string, thanksCode: string): (r: Request)
    ensures r.httpMethod == Put && r.url == ApiUrl("/users/" + u.userName)
    ensures r.header == TokenHeader(u.token)
    ensures r.body == Bytes(Encode(JObject([Member("newToken", JString(newToken))] + ThanksCodeMember(thanksCode))))
  {
    var update := UserUpdate(newToken, thanksCode);
    UserUpdateEmits(update);
    Request(Put, ApiUrl("/users/" + u.userName), TokenHeader(u.token), JsonBody(UserUpdateFields(update)))
  }

  /** Deleting the account: DELETE /users/{name}, authenticated, with an empty body. */
  function DeleteRequest(u: User): (r: Request)
    ensures r.httpMethod == Delete && r.url == ApiUrl("/users/" + u.userName)
    ensures r.header == TokenHeader(u.token) && r.body == Bytes("")
  {
    Request(Delete, ApiUrl("/users/" + u.userName), TokenHeader(u.token), Bytes(""))
  }

  /** Update and delete address the same resource and differ in method and body only. */
  lemma UpdateAndDeleteShareTarget(u: User, newToken: string, thanksCode: string)
    ensures UpdateRequest(u, newToken, thanksCode).url == DeleteRequest(u).url
    ensures UpdateRequest(u, newToken, thanksCode).header == DeleteRequest(u).header
  {
  }

}
