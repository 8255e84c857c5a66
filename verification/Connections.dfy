/** The relay's and the endpoints' connections: a buffered reader that may hold bytes read ahead, and the body of
    one goroutine of `uniteConnections`, whose connections the other goroutine may close at any moment. */
module Connections {
  import opened Options
  import opened Sequences

  /** A TCP connection: the bytes still to arrive on it and the bytes sent on it. `readsFail` and `writesFail` say
      that a read or a write has failed for a reason of its own, and that so does every later one; `refused`, that
      one came after the close. */
  class Socket {
    var unread: string
    var sent: string
    var closed: bool
    var readsFail: bool
    var writesFail: bool
    var refused: bool

    constructor (unread: string)
      ensures this.unread == unread && sent == "" && !closed && !readsFail && !writesFail && !refused
    {
      this.unread, sent, closed, readsFail, writesFail, refused := unread, "", false, false, false, false;
    }

    predicate Unreadable()
      reads this
    {
      closed || readsFail
    }

    predicate Unwritable()
      reads this
    {
      closed || writesFail
    }

    /** Answers with the next bytes, or with the end, or with an error exactly if it is closed or broken. */
    method Read(room: nat) returns (chunk: string, failed: Option<bool>)
      requires room > 0
      modifies this`unread, this`readsFail, this`refused
      ensures chunk + unread == old(unread) && |chunk| <= room && (old(readsFail) ==> readsFail)
      ensures failed == Some(true) <==> Unreadable()
      ensures failed == Some(false) <==> !Unreadable() && old(unread) == ""
      ensures failed.None? <==> chunk != ""
      ensures refused == (old(refused) || closed)
    {
      var breaks: bool := *;
      readsFail, refused := readsFail || breaks, refused || closed;
      if Unreadable() {
        return "", Some(true);
      }
      if unread == "" {
        return "", Some(false);
      }
      var n: nat :| 1 <= n <= room && n <= |unread|;
      chunk, failed := unread[..n], None;
      unread := unread[n..];
    }

    /** Sends all of `bytes`, or less exactly if it is closed or broken. */
    method Write(bytes: string) returns (n: nat)
      modifies this`sent, this`writesFail, this`refused
      ensures n <= |bytes| && sent == old(sent) + bytes[..n] && (old(writesFail) ==> writesFail)
      ensures (bytes != "" ==> (n < |bytes| <==> Unwritable())) && (closed ==> n == 0)
      ensures refused == (old(refused) || closed)
    {
      var breaks: bool := *;
      writesFail, refused := writesFail || breaks, refused || closed;
      n := |bytes|;
      if closed {
        n := 0;
      } else if writesFail && bytes != "" {
        n :| n < |bytes|;
      }
      sent := sent + bytes[..n];
    }

    method Close()
      modifies this`closed
      ensures closed
    {
      closed := true;
    }
  }

  /** `hijackedConn` and `tunnelConn`: reads go through the buffered reader that parsed the HTTP message before
      the tunnel's bytes; everything else is the raw connection. */
  class BufferedConn {
    const conn: Socket
    const size: nat
    var buffered: string

    /** The bytes that reads will deliver, whoever read them off the socket. */
    ghost function Pending(): string
      reads this, conn
    {
      buffered + conn.unread
    }

    constructor (conn: Socket, size: nat, buffered: string)
      requires size > 0
      ensures this.conn == conn && this.size == size && Pending() == buffered + conn.unread
    {
      this.conn, this.size, this.buffered := conn, size, buffered;
    }

    /** `bufio.Reader.Read`. Bytes that are buffered are handed out, as many as there is room for, whatever has become
        of the socket. Otherwise there is at most one read of the socket, directly if `room` is no less than a
        buffer, and its failure or end is the answer. */
    method Read(room: nat) returns (chunk: string, failed: Option<bool>)
      requires room > 0 && size > 0
      modifies this`buffered, conn`unread, conn`readsFail, conn`refused
      ensures chunk + Pending() == old(Pending()) && |chunk| <= room && (old(conn.readsFail) ==> conn.readsFail)
      ensures old(buffered) != "" ==>
                && chunk == old(buffered)[..Least(room, |old(buffered)|)] && chunk + buffered == old(buffered)
                && failed.None? && unchanged(conn)
      ensures old(buffered) == "" ==>
                && (failed == Some(true) <==> conn.Unreadable())
                && (failed == Some(false) <==> !conn.Unreadable() && old(conn.unread) == "")
                && (failed.None? <==> chunk != "") && (conn.closed ==> conn.refused)
    {
      if buffered == "" {
        if room >= size {
          chunk, failed := conn.Read(room);
          return;
        }
        buffered, failed := conn.Read(size);
        if failed.Some? {
          return "", failed;
        }
      }
      var n := Least(room, |buffered|);
      chunk, failed := buffered[..n], None;
      buffered := buffered[n..];
    }
  }

  function Least(m: nat, n: nat): nat {
    if n < m then n else m
  }

  /** The other goroutine runs its deferred closes, or one of them, or none. */
  method Meanwhile(server: Socket, client: Socket)
    modifies server`closed, client`closed
    ensures (old(server.closed) ==> server.closed) && (old(client.closed) ==> client.closed)
  {
    if * {
      server.Close();
    }
    if * {
      client.Close();
    }
  }

  /** `io.Copy`, with its buffer of `room` bytes: what it sends are the source's bytes, in order, and among them at
      least the bytes read ahead, unless the target fails. It reports a failure exactly if the source was closed
      or broke, or not all was sent, and only if there was one. */
  method Copy(dst: Socket, src: BufferedConn, room: nat) returns (failed: bool)
    requires dst != src.conn && room > 0 && src.size > 0
    modifies dst`sent, dst`closed, dst`writesFail, dst`refused
    modifies src`buffered, src.conn`unread, src.conn`closed, src.conn`readsFail, src.conn`refused
    ensures old(dst.sent) <= dst.sent <= old(dst.sent) + old(src.Pending())
    ensures failed <==> src.conn.Unreadable() || dst.sent != old(dst.sent) + old(src.Pending())
    ensures failed ==> src.conn.readsFail || src.conn.refused || dst.writesFail || dst.refused
    ensures !dst.Unwritable() ==> old(dst.sent) + old(src.buffered) <= dst.sent
  {
    ghost var start, all, ahead := dst.sent, dst.sent + src.Pending(), dst.sent + src.buffered;
    while true
      invariant start <= dst.sent && dst.sent + src.Pending() == all
      invariant ahead <= dst.sent || ahead == dst.sent + src.buffered
      decreases |src.Pending()|
    {
      Meanwhile(dst, src.conn);
      var chunk, end := src.Read(room);
      if end.Some? {
        assert dst.sent + "" == dst.sent;
        return end.value;
      }
      Meanwhile(dst, src.conn);
      ghost var sent := dst.sent;
      var n := dst.Write(chunk);
      Regroup(sent, chunk[..n], chunk[n..] + src.Pending());
      Regroup(chunk[..n], chunk[n..], src.Pending());
      assert chunk[..n] + chunk[n..] == chunk;
      if n < |chunk| {
        return true;
      }
      assert chunk[n..] == "" && "" + src.Pending() == src.Pending();
    }
  }

  /** One goroutine of `uniteConnections`: however the copying ends, both connections get closed. */
  method CopyThenClose(dst: BufferedConn, src: BufferedConn, client: Socket, server: Socket, room: nat)
    returns (failed: bool)
    requires dst.conn != src.conn && {dst.conn, src.conn} == {client, server} && room > 0 && src.size > 0
    modifies client, server, src`buffered
    ensures client.closed && server.closed
    ensures old(dst.conn.sent) <= dst.conn.sent <= old(dst.conn.sent) + old(src.Pending())
    ensures !failed ==> dst.conn.sent == old(dst.conn.sent) + old(src.Pending()) && !src.conn.readsFail
    ensures failed ==> src.conn.readsFail || src.conn.refused || dst.conn.writesFail || dst.conn.refused
  {
    failed := Copy(dst.conn, src, room);
    server.Close();
    client.Close();
  }
}
