/** The props of the frame-sequence player. */
module SequenceConfig {
  import opened Wrappers

  /** `netProfileOverride`; an absent override is one with both fields absent. */
  datatype NetOverride = NetOverride(maxInflight: Option<int>, window: Option<int>)

  datatype Props = Props(
    count: int,
    fps: real,
    dir: string,
    base: string,
    pad: int,
    ext: string,
    extCandidates: Option<seq<string>>,
    sources: Option<seq<string>>,
    start: int,
    loops: real,
    active: bool,
    maxCache: int,
    netProfileOverride: NetOverride,
    prefetchWindow: Option<int>)
}
