/** What a subscriber is: its listener, what it subscribed to, who it is, and whether it is frozen. */
module Subscribers {
  import opened Listeners

  const ALL_USER := -1
  const UNDEFINED_USER := -3

  datatype Skills = Skills(entities: seq<string>, events: seq<string>, schemes: seq<string>)

  datatype SubscribeInfo = SubscribeInfo(
    permission: string,
    priority: int,
    userId: int,
    threadMode: int,
    deviceId: string,
    skills: Skills,
    publisherBundleName: string,
    publisherUid: int)

  datatype Owner = Owner(
    pid: int,
    uid: int,
    callerToken: int,
    bundleName: string,
    isSystemApp: bool,
    isSubsystem: bool,
    isProxy: bool)

  datatype Entry = Entry(
    listener: Listener,
    info: SubscribeInfo,
    owner: Owner,
    isFreeze: bool,
    freezeTime: int,
    recordTime: int)
}
