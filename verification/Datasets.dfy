/** Data sets as values: families of networks, talkgroups, radios and calls, and where they come from. */
module Datasets {
  import opened NetMerges

  datatype DsNetwork = DsNetwork(
    name: string, confidence: string, ids: map<string, string>, sites: set<string>, freqs: set<int>,
    sessions: nat, calls: nat, first: int, last: int, keys: map<string, nat>)

  datatype DsTalkgroup = DsTalkgroup(
    radios: map<string, nat>, networks: set<string>, calls: nat, emerg: nat, enc: nat,
    first: int, last: int, keys: map<string, nat>)

  datatype Fix = Fix(time: int, pos: string)

  datatype DsRadio = DsRadio(
    aliases: seq<string>, tgs: map<string, nat>, peers: map<string, nat>, networks: set<string>,
    keys: map<string, nat>, calls: nat, first: int, last: int, pos: string, posTime: int, track: seq<Fix>)

  datatype DsCall = DsCall(
    id: nat, session: nat, streams: nat, net: string, site: string, slot: string, src: string, tgt: string,
    alias: string, text: string, svc: string, pos: string,
    priv: bool, voice: bool, data: bool, emerg: bool, enc: bool, alg: string, kid: string,
    start: int, last: int, freq: int, audio: string, audioMs: nat)

  datatype DsFamily = DsFamily(networks: map<string, DsNetwork>, tgs: map<string, DsTalkgroup>,
                               radios: map<string, DsRadio>, calls: seq<DsCall>)

  const NO_FAMILY := DsFamily(map[], map[], map[], [])

  /** Where data comes from: a run, named by its instance, and the span of it that was recorded. */
  datatype Source = Source(instance: string, since: int, through: int)

  datatype Dataset = Dataset(name: string, exported: int, sources: seq<Source>, fams: map<string, DsFamily>, merges: Book)

  /** The earlier of two times, where 0 is no time. */
  function Earliest(a: int, b: int): int {
    if a == 0 then b else if b == 0 then a else if a < b then a else b
  }

  function ConfidenceRank(c: string): nat {
    if c == "strong" then 3 else if c == "channel" then 2 else if c == "weak" then 1 else 0
  }
}
