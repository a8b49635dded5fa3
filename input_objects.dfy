/** Model of src/argument_parser/input_objects.hpp: an input paired with its health. */
module InputObjects {
  import opened UniversalInputStream

  /** `HealthStatus`; a default-constructed one is healthy with an empty message. */
  datatype HealthStatus = HealthStatus(isHealthy: bool, errorMessage: string)

  const Healthy: HealthStatus := HealthStatus(true, "")

  /** `InputDataObject`: the stream to count and whether opening it went well. */
  datatype InputDataObject = InputDataObject(stream: InputStream, health: HealthStatus)

  /** The inputs own their streams: no two share one, and each is in a consistent state. */
  ghost predicate WellFormed(inputs: seq<InputDataObject>)
    reads set i | 0 <= i < |inputs| :: inputs[i].stream
  {
    && (forall i :: 0 <= i < |inputs| ==> inputs[i].stream.Valid())
    && (forall i, j :: 0 <= i < j < |inputs| ==> inputs[i].stream != inputs[j].stream)
  }

  /** The streams the inputs own. */
  ghost function Streams(inputs: seq<InputDataObject>): set<InputStream>
  {
    set i | 0 <= i < |inputs| :: inputs[i].stream
  }
}
