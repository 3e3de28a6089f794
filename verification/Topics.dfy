/** The values that every part of the bridge passes around. */
module Topics {

  datatype TopicDescriptor = TopicDescriptor(name: string, datatype_: seq<Byte>, md5: string)

  /** The datatype's name is kept as its UTF-8 bytes. */
  type Byte = x: int | 0 <= x < 256

  datatype BridgeType = Publisher | Subscriber | Service | Client

  datatype BridgingMode = LazyAuto | Auto | Disabled

  /** `bridging_mode`: what the configuration says for a kind of bridge and a topic name. */
  type Modes = (BridgeType, string) -> BridgingMode

  /** The kind of bridge that a remote entity of kind `t` calls for. */
  function Complement(t: BridgeType): BridgeType {
    match t
    case Publisher => Subscriber
    case Subscriber => Publisher
    case Service => Client
    case Client => Service
  }

  /** The three topic sets read from the ROS master in one poll. */
  datatype Ros1TopicMapping = Ros1TopicMapping(
    published: set<TopicDescriptor>, subscribed: set<TopicDescriptor>, serviced: set<TopicDescriptor>)
}
