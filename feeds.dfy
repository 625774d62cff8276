/**
 * What the Go processes receive from outside: the configuration parameters
 * and the decoded messages of the dashboard's websocket feeds, the result
 * of reading one path of the database, and the list of ids a process
 * builds from the keys of a decoded JSON object.
 */
module Feeds {

  /** The parameters the configuration feed sends (ParametrosConfig). */
  datatype Config = Config(horaInicio: real, horaFin: real, umbralTemperaturaAC: real, umbralCorriente: real,
                           voltaje: real, costoKwh: real)

  /** The zero value Go gives an unset configuration. */
  const ZeroConfig: Config := Config(0.0, 0.0, 0.0, 0.0, 0.0, 0.0)

  /** A feed message once decoded; Unparsable stands for a JSON decoding error. */
  datatype Feed<T> = Unparsable | Feed(tipo: string, data: T)

  /** The result of reading a device-state path: an error, a null value, or the states. */
  datatype Fetched = FetchError | Null | Found(estados: map<string, bool>)

  /** Both devices on: the default device state wherever one is missing. */
  const BothOn: map<string, bool> := map["aire" := true, "luces" := true]

  /** A device of a state map is on; a key Go finds missing reads as false. */
  function Encendido(estado: map<string, bool>, device: string): (on: bool)
    ensures on <==> device in estado && estado[device]
  {
    if device in estado then estado[device] else false
  }

  predicate Distinct(s: seq<string>)
  {
    forall i, j | 0 <= i < j < |s| :: s[i] != s[j]
  }

  /** The ids of a decoded map, in whatever order the runtime enumerates its keys. */
  method KeysOf<V>(data: map<string, V>) returns (ids: seq<string>)
    ensures forall x :: x in ids <==> x in data
    ensures Distinct(ids) && |ids| == |data|
  {
    ids := [];
    var todo := data.Keys;
    while todo != {}
      invariant todo <= data.Keys
      invariant forall x :: x in ids <==> x in data && x !in todo
      invariant Distinct(ids) && |ids| + |todo| == |data|
      decreases |todo|
    {
      var id :| id in todo;
      ids := ids + [id];
      todo := todo - {id};
    }
  }
}
