/**
 * The client (client.go): an account name and the token it authenticates with, the accessors
 * it hands out for each group of endpoints, and the account operations, of which replacing the
 * token is the one that changes the client.
 */
module ClientApi {
  import opened Wrappers
  import opened Rest
  import UserApi
  import GraphApi
  import PixelApi
  import ChannelApi
  import NotificationApi
  import WebhookApi

  class Client {
    var userName: string
    var token: string

    /** `NewClient`: the name and the token are stored as given. */
    constructor (userName: string, token: string)
      ensures this.userName == userName && this.token == token
    {
      this.userName := userName;
      this.token := token;
    }

    /** The account accessor, built from the client's current name and token. */
    function User(): (u: UserApi.User)
      reads this
      ensures u.userName == userName && u.token == token
    {
      UserApi.User(userName, token)
    }

    /** The channel accessor: the client's name and token. */
    function Channel(): (a: ChannelApi.Channel)
      reads this
      ensures a.userName == userName && a.token == token
    {
      ChannelApi.Channel(userName, token)
    }

    /** The graph accessor: the client's name and token and the given graph. */
    function Graph(graphID: string): (a: GraphApi.Graph)
      reads this
      ensures a.userName == userName && a.token == token && a.graphID == graphID
    {
      GraphApi.Graph(userName, token, graphID)
    }

    /** The pixel accessor: the client's name and token and the given graph. */
    function Pixel(graphID: string): (a: PixelApi.Pixel)
      reads this
      ensures a.userName == userName && a.token == token && a.graphID == graphID
    {
      PixelApi.Pixel(userName, token, graphID)
    }

    /** The notification accessor: the client's name and token and the given graph. */
    function Notification(graphID: string): (a: NotificationApi.Notification)
      reads this
      ensures a.userName == userName && a.token == token && a.graphID == graphID
    {
      NotificationApi.Notification(userName, token, graphID)
    }

    /** The webhook accessor: the client's name and token. */
    function Webhook(): (a: WebhookApi.Webhook)
      reads this
      ensures a.userName == userName && a.token == token
    {
      WebhookApi.Webhook(userName, token)
    }

    /** Creating the account: the create request for the client's name and token is sent and
        its outcome returned; the client is not changed. */
    method CreateUser(agreeTermsOfService: bool, notMinor: bool, thanksCode: string, send: Request -> Reply<Result>)
      returns (r: Reply<Result>)
      ensures r == send(UserApi.CreateRequest(UserApi.User(userName, token), agreeTermsOfService, notMinor, thanksCode))
    {
      r := send(UserApi.CreateRequest(User(), agreeTermsOfService, notMinor, thanksCode));
    }

    /** Replacing the token: the update request is sent with the current token, and the client
        adopts the new token exactly when the call returned no error and reported success;
        otherwise the token is left as it was. The account name never changes. */
    method UpdateUser(newToken: string, thanksCode: string, send: Request -> Reply<Result>)
      returns (r: Reply<Result>)
      modifies this
      ensures r == send(UserApi.UpdateRequest(UserApi.User(old(userName), old(token)), newToken, thanksCode))
      ensures token == (if r.err == None && r.value.isSuccess then newToken else old(token))
      ensures userName == old(userName)
    {
      r := send(UserApi.UpdateRequest(User(), newToken, thanksCode));
      if r.err == None && r.value.isSuccess {
        token := newToken;
      }
    }

    /** Deleting the account: the delete request for the client's name and token is sent and its
        outcome returned; the client is not changed. */
    method DeleteUser(send: Request -> Reply<Result>) returns (r: Reply<Result>)
      ensures r == send(UserApi.DeleteRequest(UserApi.User(userName, token)))
    {
      r := send(UserApi.DeleteRequest(User()));
    }
  }

  /** After a successful token replacement, every accessor the client hands out carries the new
      token, and the next account request authenticates with it. */
  method TokenReplacementScenario(send: Request -> Reply<Result>) returns (c: Client)
    requires forall q :: send(q) == Reply(Result("", true), None)
    ensures fresh(c) && c.userName == "name" && c.token == "newToken"
    ensures c.Graph("graph-id") == GraphApi.Graph("name", "newToken", "graph-id")
    ensures UserApi.DeleteRequest(c.User()).header == TokenHeader("newToken")
  {
    c := new Client("name", "token");
    var r := c.UpdateUser("newToken", "thanks-code", send);
  }

  /** A replacement the service refused, or one that ended in an error such as not found,
      leaves the client on the old token. */
  method FailedReplacementScenario(send: Request -> Reply<Result>) returns (c: Client)
    requires forall q :: send(q).err.Some? || !send(q).value.isSuccess
    ensures fresh(c) && c.userName == "name" && c.token == "token"
  {
    c := new Client("name", "token");
    var r := c.UpdateUser("newToken", "thanks-code", send);
  }
}
