/**
 * Stand-ins for the configuration records of the in-browser inference
 * library. Their contents are passed through and never interpreted, so each
 * is a list of (setting name, value text) pairs.
 */
module WllamaTypes {

  /** Sampling parameters handed to the runtime for a completion. */
  datatype SamplingConfig = SamplingConfig(settings: seq<(string, string)>)

  /** Options for loading a model file. */
  datatype LoadModelConfig = LoadModelConfig(settings: seq<(string, string)>)

  /** The empty options record `{}`. */
  const EmptyLoadModelConfig := LoadModelConfig([])
}
