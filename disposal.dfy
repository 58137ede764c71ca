/** The dispose protocol of `HalHttpClient`: the client owns the transport handed to
    its constructor, releases it on the first `Dispose()` and forgets it, so that later
    calls do nothing. */
module Disposal {

  /** The owned transport (`HttpClient`); `disposals` counts how often it was disposed. */
  class HttpTransport {
    var disposals: nat

    constructor ()
      ensures disposals == 0
    {
      disposals := 0;
    }

    method Dispose()
      modifies this
      ensures disposals == old(disposals) + 1
    {
      disposals := disposals + 1;
    }
  }

  /** The C# class `HalHttpClient`, seen only through its ownership of the transport;
      the parser and the configuration are not part of this protocol. */
  class DisposableHalClient {
    var httpClient: HttpTransport?
    /** The transport given to the constructor. */
    ghost const owned: HttpTransport

    /** How often this client has disposed its transport itself. */
    ghost var released: nat

    /** The field is the owned transport, which the client has not disposed, until
        `Dispose()` disposes it once and nulls the field. Other holders of the
        transport may dispose it too; only the client's own disposals are counted here. */
    ghost predicate Valid()
      reads this
    {
      && (httpClient != null ==> httpClient == owned && released == 0)
      && (httpClient == null ==> released == 1)
    }

    ghost predicate IsDisposed()
      reads this
    {
      httpClient == null
    }

    /** Takes ownership of any transport, whether or not it was disposed before. */
    constructor (httpClient: HttpTransport)
      ensures Valid() && !IsDisposed()
      ensures this.httpClient == httpClient && owned == httpClient && released == 0
      ensures unchanged(httpClient)
    {
      this.httpClient := httpClient;
      owned := httpClient;
      released := 0;
    }

    /** `Dispose(bool)`: with `disposing` false nothing happens; otherwise a held
        transport is disposed and the field nulled, and a nulled field stays as it is. */
    method DisposeCore(disposing: bool)
      requires Valid()
      modifies this, owned
      ensures Valid()
      ensures !disposing ==> unchanged(this) && unchanged(owned)
      ensures old(httpClient) == null ==> unchanged(this) && unchanged(owned)
      ensures disposing ==> IsDisposed()
      ensures disposing && old(httpClient) != null ==>
        owned.disposals == old(owned.disposals) + 1 && released == old(released) + 1
    {
      if !disposing {
        return;
      }
      if httpClient == null {
        return;
      }
      httpClient.Dispose();
      httpClient := null;
      released := released + 1;
    }

    /** `Dispose()`: disposes the owned transport if the client still holds it. */
    method Dispose()
      requires Valid()
      modifies this, owned
      ensures Valid() && IsDisposed() && released == 1
      ensures old(httpClient) != null ==> owned.disposals == old(owned.disposals) + 1
      ensures old(httpClient) == null ==> unchanged(this) && unchanged(owned)
    {
      DisposeCore(true);
    }
  }

  /** However often a client is disposed, it disposes its transport once. */
  method DisposeTwice(transport: HttpTransport) returns (client: DisposableHalClient)
    modifies transport
    ensures client.owned == transport && client.IsDisposed() && client.released == 1
    ensures transport.disposals == old(transport.disposals) + 1
  {
    client := new DisposableHalClient(transport);
    client.Dispose();
    client.Dispose();
  }

  /** A transport disposed by another holder while the client holds it is still
      disposed by the client's own `Dispose()`, once. */
  method DisposedElsewhere(transport: HttpTransport) returns (client: DisposableHalClient)
    modifies transport
    ensures client.owned == transport && client.IsDisposed() && client.released == 1
    ensures transport.disposals == old(transport.disposals) + 2
  {
    client := new DisposableHalClient(transport);
    transport.Dispose();
    client.Dispose();
  }
}
