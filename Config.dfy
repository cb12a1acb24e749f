/**
 * The receiver values the WeChat notifier consumes, as far as the notifier
 * looks into them. The configuration package that defines them is not part
 * of this model; only the fields the notifier reads or writes appear here.
 */
module Config {
  import opened Wrappers

  /** Transport fields of a WeChat Work receiver. */
  datatype WechatConfig = WechatConfig(apiUrl: string, corpId: string, agentId: string, apiSecret: string)

  /** A WeChat receiver: its scope, its transport config (a pointer that may be nil) and three destination lists. */
  datatype Wechat = Wechat(namespace: string, config: Option<WechatConfig>, toUser: string, toParty: string, toTag: string)

  /**
   * An element of the receiver list: a WeChat receiver, a nil `*config.Wechat`,
   * or a receiver of another channel type.
   */
  datatype Receiver = WechatReceiver(wechat: Wechat) | NilWechat | OtherReceiver

  /**
   * `(*config.Wechat).Clone`. Its body is not part of this model; what it is
   * assumed to do is written out here: a copy of the receiver whose three
   * destination lists are empty. Merging and batching rely on exactly this.
   */
  function Clone(w: Wechat): Wechat
  {
    w.(toUser := "", toParty := "", toTag := "")
  }
}
