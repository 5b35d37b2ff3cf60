/**
 * The MySQL provider (providers/mysql.js): a source that rotates through a
 * list of connection configurations, and a connection wrapper whose
 * `connected` flag decides `unwrap` and `isLive`. The `mysql` library itself
 * (`createConnection`, `connect`, `end`) is opaque: a raw connection is
 * identified by the configuration it was created from, and the outcome of
 * `connect` is a parameter.
 */
module MySql {

  /** One element of the configuration list; `Undefined` is JavaScript's `undefined`. */
  datatype Config = Undefined | Settings(id: nat)

  /** The constructor's argument: an array of configurations or anything else. */
  datatype ConfigArg = List(configs: seq<Config>) | Single(config: Config)

  /** What `mysql.createConnection(config)` returns, seen from outside. */
  datatype RawConnection = Raw(config: Config)

  datatype Error = NotConnected | ConnectFailed

  datatype Result<T> = Ok(value: T) | Err(error: Error)

  /**
   * `configs.pop()` followed by `configs.unshift(config)` (mysql.js:18-19):
   * the last configuration moves to the front and the others shift back by
   * one. `pop` on an empty list gives `undefined`, which is put back.
   */
  function PopUnshift(s: seq<Config>): (r: seq<Config>)
    ensures s == [] ==> r == [Undefined]
    ensures s != [] ==> |r| == |s| && r[0] == s[|s| - 1]
  {
    if s == [] then [Undefined] else [s[|s| - 1]] + s[..|s| - 1]
  }

  /**
   * The configuration list after `k` calls of `create`. A non-empty list
   * keeps its length; an empty one becomes `[undefined]` at the first call
   * and stays so.
   */
  function Rotated(s: seq<Config>, k: nat): (r: seq<Config>)
    ensures s != [] ==> |r| == |s|
    ensures s == [] && k > 0 ==> r == [Undefined]
  {
    if k == 0 then s else PopUnshift(Rotated(s, k - 1))
  }

  /** On a non-empty list one rotation keeps the length and the multiset of configurations. */
  lemma RotationKeepsConfigs(s: seq<Config>)
    requires s != []
    ensures |PopUnshift(s)| == |s|
    ensures multiset(PopUnshift(s)) == multiset(s)
    ensures PopUnshift(s)[0] == s[|s| - 1]
  {
    assert s == s[..|s| - 1] + [s[|s| - 1]];
  }

  /** Rotating a concatenation moves the last element of its second part to the front. */
  lemma PopUnshiftConcat(a: seq<Config>, b: seq<Config>)
    requires b != []
    ensures PopUnshift(a + b) == [b[|b| - 1]] + a + b[..|b| - 1]
  {
    assert (a + b)[..|a + b| - 1] == a + b[..|b| - 1];
  }

  /** After `k <= |s|` creates the last `k` configurations have moved to the front. */
  lemma {:induction false} RotatedClosedForm(s: seq<Config>, k: nat)
    requires s != [] && k <= |s|
    ensures Rotated(s, k) == s[|s| - k..] + s[..|s| - k]
  {
    var n := |s|;
    if k == 0 {
      assert s[n..] + s[..n] == s;
    } else {
      RotatedClosedForm(s, k - 1);
      var front, back := s[n - k + 1..], s[..n - k + 1];
      assert Rotated(s, k - 1) == front + back;
      assert Rotated(s, k) == PopUnshift(front + back);
      PopUnshiftConcat(front, back);
      assert back[|back| - 1] == s[n - k];
      assert back[..|back| - 1] == s[..n - k];
      assert [s[n - k]] + front == s[n - k..];
      assert Rotated(s, k) == ([s[n - k]] + front) + s[..n - k];
    }
  }

  /** `n` creates over `n` configurations restore the original order. */
  lemma FullCycleRestoresOrder(s: seq<Config>)
    requires s != []
    ensures Rotated(s, |s|) == s
  {
    RotatedClosedForm(s, |s|);
    assert s[0..] == s;
  }

  /**
   * The `k`-th create (counting from 0) pops the configuration `k` places
   * from the end: configurations are used last first.
   */
  lemma CreatesUseConfigsBackwards(s: seq<Config>, k: nat)
    requires k < |s|
    ensures |Rotated(s, k)| == |s| && Rotated(s, k)[|s| - 1] == s[|s| - 1 - k]
    ensures PopUnshift(Rotated(s, k))[0] == s[|s| - 1 - k]
  {
    RotatedClosedForm(s, k);
  }

  /** `MySqlConnection` (mysql.js:52-99): one physical connection and its `connected` flag. */
  class MySqlConnection {
    const config: Config
    /** The connection `mysql.createConnection(config)` made. */
    const conn: RawConnection
    var connected: bool
    /** Whether `conn.end()` has been called. */
    ghost var ended: bool

    /** `new MySqlConnection(config)`: not connected until `connect` succeeds. */
    constructor (config: Config)
      ensures this.config == config && conn == Raw(config)
      ensures !connected && !ended
    {
      this.config := config;
      conn := Raw(config);
      connected := false;
      ended := false;
    }

    /**
     * The `connect` callback (mysql.js:57-61): an error rejects `ready` and
     * leaves the connection unconnected; otherwise it becomes connected and
     * `ready` resolves with the connection itself.
     */
    method OnConnect(failed: bool) returns (ready: Result<MySqlConnection>)
      modifies this
      ensures failed ==> ready == Err(ConnectFailed) && connected == old(connected)
      ensures !failed ==> ready == Ok(this) && connected
      ensures ended == old(ended)
    {
      if failed {
        ready := Err(ConnectFailed);
      } else {
        connected := true;
        ready := Ok(this);
      }
    }

    /**
     * The connection's 'error' handler (mysql.js:63-67): a fatal error on a
     * connected connection destroys it; any other error changes nothing.
     */
    method OnError(fatal: bool)
      modifies this
      ensures fatal && old(connected) ==> !connected && ended
      ensures !(fatal && old(connected)) ==> connected == old(connected) && ended == old(ended)
    {
      if fatal && connected {
        Destroy();
      }
    }

    /**
     * `destroy` (mysql.js:73-78): mark the connection unconnected and close
     * it; an exception from `end` is swallowed, so the flag is cleared either way.
     */
    method Destroy()
      modifies this
      ensures !connected && ended
    {
      connected := false;
      ended := true;
    }

    /** `unwrap` (mysql.js:85-90): the raw connection, or an error when not connected. */
    method Unwrap() returns (r: Result<RawConnection>)
      ensures connected ==> r == Ok(conn)
      ensures !connected ==> r == Err(NotConnected)
    {
      if !connected {
        r := Err(NotConnected);
      } else {
        r := Ok(conn);
      }
    }

    /** `isLive` (mysql.js:97-99): live exactly when connected. */
    method IsLive() returns (live: bool)
      ensures live == connected
    {
      live := connected;
    }
  }

  /** `MySqlSource` (mysql.js:7-50): the provider handed to the pool. */
  class MySqlSource {
    var configs: seq<Config>

    /** `new MySqlSource(configs)`: anything but an array becomes a one-element list (mysql.js:8). */
    constructor (arg: ConfigArg)
      ensures arg.List? ==> configs == arg.configs
      ensures arg.Single? ==> configs == [arg.config]
    {
      match arg
      case List(cs) => configs := cs;
      case Single(c) => configs := [c];
    }

    /**
     * `create` (mysql.js:17-21): take the last configuration, put it back at
     * the front and open a connection with it. On an empty list `pop` gives
     * `undefined`, which is put back, so the list becomes `[undefined]`.
     */
    method Create() returns (c: MySqlConnection)
      modifies this
      ensures configs == PopUnshift(old(configs))
      ensures fresh(c) && c.config == configs[0] && c.conn == Raw(configs[0])
      ensures old(configs) != [] ==> c.config == old(configs)[|old(configs)| - 1]
      ensures !c.connected && !c.ended
    {
      var config;
      if configs == [] {
        config := Undefined;
        configs := [config];
      } else {
        config := configs[|configs| - 1];
        configs := configs[..|configs| - 1];
        configs := [config] + configs;
      }
      c := new MySqlConnection(config);
    }

    /** `destroy` (mysql.js:28-30) delegates to the connection. */
    method Destroy(c: MySqlConnection)
      modifies c
      ensures !c.connected && c.ended
    {
      c.Destroy();
    }

    /** `unwrap` (mysql.js:38-40) delegates to the connection. */
    method Unwrap(c: MySqlConnection) returns (r: Result<RawConnection>)
      ensures c.connected ==> r == Ok(c.conn)
      ensures !c.connected ==> r == Err(NotConnected)
    {
      r := c.Unwrap();
    }

    /** `isLive` (mysql.js:48-50) delegates to the connection. */
    method IsLive(c: MySqlConnection) returns (live: bool)
      ensures live == c.connected
    {
      live := c.IsLive();
    }
  }
}
