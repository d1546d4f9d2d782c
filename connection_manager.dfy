/** The Neo4j connection manager: a driver that is there or not, a status
    "open" or "closed", and the name of the database in use. Creating a
    driver is a parameter that may fail. */
module ConnectionManager {
  import opened Wrappers

  /** A driver handle, as the driver factory hands it out. */
  datatype Driver = Driver(handle: nat)

  /** A session opened on a driver. */
  datatype Session = Session(driver: Driver)

  /** The graph database settings (URI, credentials, default database). */
  datatype GraphConfig = GraphConfig(uri: string, username: string, password: string, dbName: string)

  /** GraphDatabase.driver(url, auth=(username, password)). */
  type DriverFactory = (string, string, string) -> Result<Driver>

  class Neo4jConnectionManager {
    const config: GraphConfig
    var driver: Option<Driver>
    var status: string
    var dbName: string

    /** A driver exists exactly when the status is "open". Every operation
        keeps this. */
    predicate Valid()
      reads this
    {
      (status == "open" || status == "closed") && (driver.Some? <==> status == "open")
    }

    /** Neo4jConnectionManager(agent_config): closed, no driver, the
        configured database. */
    constructor (config: GraphConfig)
      ensures this.config == config && driver == None && status == "closed" && dbName == config.dbName
      ensures Valid() && !IsConnected()
    {
      this.config := config;
      driver := None;
      status := "closed";
      dbName := config.dbName;
    }

    /** is_connected */
    predicate IsConnected()
      reads this
    {
      status == "open" && driver.Some?
    }

    /** Under the invariant, being connected is having a driver. */
    lemma ConnectedIffDriver()
      requires Valid()
      ensures IsConnected() <==> driver.Some?
      ensures IsConnected() <==> status == "open"
    {
    }

    /** connect: nothing to do with a driver already there; otherwise a new
        driver for "<uri>/<db_name>" opens the connection, and a factory
        failure closes it and raises Neo4jConnectionError. */
    method Connect(open: DriverFactory) returns (r: Result<()>)
      modifies this
      ensures dbName == old(dbName)
      ensures old(driver).Some? ==> r == Success(()) && driver == old(driver) && status == old(status)
      ensures old(driver).None? ==>
                var made := open(config.uri + "/" + dbName, config.username, config.password);
                if made.Success? then r == Success(()) && driver == Some(made.value) && status == "open"
                else r == Failure(Neo4jConnectionError("Failed to connect to Neo4j: " + Message(made.error)))
                     && driver == None && status == "closed"
      ensures old(Valid()) ==> Valid()
      ensures old(Valid()) && r.Success? ==> IsConnected()
    {
      if driver.Some? {
        return Success(());
      }
      var made := open(config.uri + "/" + dbName, config.username, config.password);
      if made.Failure? {
        status := "closed";
        return Failure(Neo4jConnectionError("Failed to connect to Neo4j: " + Message(made.error)));
      }
      driver := Some(made.value);
      status := "open";
      r := Success(());
    }

    /** disconnect: drop the driver and close; nothing without a driver. */
    method Disconnect()
      modifies this
      ensures dbName == old(dbName)
      ensures old(driver).Some? ==> driver == None && status == "closed"
      ensures old(driver).None? ==> driver == old(driver) && status == old(status)
      ensures old(Valid()) ==> Valid() && !IsConnected()
    {
      if driver.Some? {
        driver := None;
        status := "closed";
      }
    }

    /** get_session: connect first when not connected, then a session on
        the driver. The "not connected" error cannot happen while the
        invariant holds: a failed connect raises first. */
    method GetSession(open: DriverFactory) returns (r: Result<Session>)
      modifies this
      ensures dbName == old(dbName)
      ensures old(IsConnected()) ==> r == Success(Session(old(driver).value)) && driver == old(driver) && status == old(status)
      ensures r.Success? ==> driver.Some? && r.value == Session(driver.value)
      ensures old(Valid()) ==> Valid()
      ensures old(Valid()) && !old(IsConnected()) ==>
                var made := open(config.uri + "/" + dbName, config.username, config.password);
                if made.Success? then r == Success(Session(made.value)) && IsConnected()
                else r == Failure(Neo4jConnectionError("Failed to connect to Neo4j: " + Message(made.error)))
      ensures old(Valid()) ==> r != Failure(Neo4jConnectionError("Neo4j driver is not connected."))
    {
      if !IsConnected() {
        var c := Connect(open);
        if c.Failure? {
          assert old(Valid()) ==> c.error.msg[0] == 'F';
          return Failure(c.error);
        }
      }
      if driver.None? {
        return Failure(Neo4jConnectionError("Neo4j driver is not connected."));
      }
      r := Success(Session(driver.value));
    }

    /** use_database(name): a different name is recorded and the driver
        replaced by one for it; the same name only connects when not
        connected. */
    method UseDatabase(name: string, open: DriverFactory) returns (r: Result<()>)
      modifies this
      ensures dbName == name
      ensures old(Valid()) ==> Valid()
      ensures name != old(dbName) || !old(IsConnected()) ==>
                var made := open(config.uri + "/" + name, config.username, config.password);
                old(Valid()) ==>
                  if made.Success? then r == Success(()) && driver == Some(made.value) && IsConnected()
                  else r == Failure(Neo4jConnectionError("Failed to connect to Neo4j: " + Message(made.error)))
                       && driver == None && status == "closed"
      ensures name == old(dbName) && old(IsConnected()) ==>
                r == Success(()) && driver == old(driver) && status == old(status)
    {
      if name != dbName {
        dbName := name;
        Disconnect();
        r := Connect(open);
      } else if !IsConnected() {
        r := Connect(open);
      } else {
        r := Success(());
      }
    }
  }
}
