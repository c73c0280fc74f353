/**
 * The data carried between the browser and the simulation endpoint:
 * the beam description the form submits and the result the service returns.
 * Java doubles and JavaScript numbers are modelled as exact reals.
 */
module Model {

  datatype Option<T> = None | Some(value: T)

  /** SimulationPayload: the beam as the user describes it (metres, kilograms, pascals). */
  datatype Payload = Payload(
    length: real,
    width: real,
    height: real,
    loadInKg: real,
    materialYieldStrength: real)

  /** SimulationResult: the peak stress, the safety verdict and the sampled stress profile. */
  datatype SimulationResult = SimulationResult(
    maxStress: real,
    safe: bool,
    distribution: seq<real>)
}
