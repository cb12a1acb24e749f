/**
 * Defaults and overrides of the WeChat notifier's options, resolved once when
 * the notifier is built. Durations are counted in nanoseconds, as Go's
 * `time.Duration` is.
 */
module Options {
  import opened Wrappers

  const Second: int := 1_000_000_000
  const DefaultSendTimeout: int := 3 * Second
  const DefaultTemplate: string := "{{ template \"nm.default.text\" . }}"
  const MessageMaxSize: int := 2048
  const DefaultExpires: int := 2 * 3600 * Second

  /** Go's int64 arithmetic: the value of `x` wrapped to a signed 64-bit integer. */
  function WrapInt64(x: int): (r: int)
    ensures -0x8000_0000_0000_0000 <= r < 0x8000_0000_0000_0000
    ensures (r - x) % 0x1_0000_0000_0000_0000 == 0
  {
    var m := x % 0x1_0000_0000_0000_0000;
    if m >= 0x8000_0000_0000_0000 then m - 0x1_0000_0000_0000_0000 else m
  }

  datatype GlobalOptions = GlobalOptions(templateFiles: seq<string>, template: string)

  datatype WechatOptions = WechatOptions(
    notificationTimeout: Option<int>,
    template: string,
    messageMaxSize: int,
    tokenExpires: int)

  datatype ReceiverOptions = ReceiverOptions(global: Option<GlobalOptions>, wechat: Option<WechatOptions>)

  /** The resolved settings a notifier carries. */
  datatype Settings = Settings(timeout: int, templateName: string, messageMaxSize: int, tokenExpires: int)

  const Defaults: Settings := Settings(DefaultSendTimeout, DefaultTemplate, MessageMaxSize, DefaultExpires)

  /** The template files handed to the template loader: the global ones, if any. */
  function TemplatePath(opts: Option<ReceiverOptions>): seq<string>
  {
    if opts.Some? && opts.value.global.Some? then opts.value.global.value.templateFiles else []
  }

  /** Only the global options choose the template files; the WeChat options play no part. */
  lemma TemplateFilesGlobalOnly(g: Option<GlobalOptions>, w1: Option<WechatOptions>, w2: Option<WechatOptions>)
    ensures TemplatePath(Some(ReceiverOptions(g, w1))) == TemplatePath(Some(ReceiverOptions(g, w2)))
    ensures g.None? ==> TemplatePath(Some(ReceiverOptions(g, w1))) == []
    ensures g.Some? ==> TemplatePath(Some(ReceiverOptions(g, w1))) == g.value.templateFiles
    ensures TemplatePath(None) == []
  {
  }

  /** The settings the notifier is built with, from the optional receiver options. */
  function Resolve(opts: Option<ReceiverOptions>): (s: Settings)
    // Without WeChat options every setting keeps its default, whatever the global options say.
    ensures opts.None? || opts.value.wechat.None? ==> s == Defaults
    // Invariants of the resolved settings.
    ensures |s.templateName| > 0
    ensures s.messageMaxSize > 0
    ensures s.tokenExpires != 0
    ensures -0x8000_0000_0000_0000 <= s.timeout < 0x8000_0000_0000_0000
  {
    var s := Defaults;
    if opts.Some? && opts.value.wechat.Some? then
      var w := opts.value.wechat.value;
      var timeout := if w.notificationTimeout.Some? then WrapInt64(Second * w.notificationTimeout.value) else s.timeout;
      var name :=
        if |w.template| > 0 then w.template
        else if opts.value.global.Some? && |opts.value.global.value.template| > 0 then opts.value.global.value.template
        else s.templateName;
      var maxSize := if w.messageMaxSize > 0 then w.messageMaxSize else s.messageMaxSize;
      var expires := if w.tokenExpires != 0 then w.tokenExpires else s.tokenExpires;
      Settings(timeout, name, maxSize, expires)
    else
      s
  }

  /** Template precedence: the WeChat template, else the global one, else the default. */
  lemma TemplatePrecedence(g: Option<GlobalOptions>, w: WechatOptions)
    ensures var name := Resolve(Some(ReceiverOptions(g, Some(w)))).templateName;
      && (|w.template| > 0 ==> name == w.template)
      && (|w.template| == 0 && g.Some? && |g.value.template| > 0 ==> name == g.value.template)
      && (|w.template| == 0 && (g.None? || |g.value.template| == 0) ==> name == DefaultTemplate)
  {
  }

  /** The message size is overridden exactly when the WeChat value is positive. */
  lemma MaxSizeOverride(g: Option<GlobalOptions>, w: WechatOptions)
    ensures var s := Resolve(Some(ReceiverOptions(g, Some(w))));
      (w.messageMaxSize > 0 ==> s.messageMaxSize == w.messageMaxSize)
      && (w.messageMaxSize <= 0 ==> s.messageMaxSize == MessageMaxSize)
  {
  }

  /** The token lifetime is overridden by any non-zero value, negative ones included. */
  lemma TokenExpiresOverride(g: Option<GlobalOptions>, w: WechatOptions)
    ensures var s := Resolve(Some(ReceiverOptions(g, Some(w))));
      (w.tokenExpires != 0 ==> s.tokenExpires == w.tokenExpires)
      && (w.tokenExpires == 0 ==> s.tokenExpires == DefaultExpires)
  {
  }

  /**
   * The timeout is the configured number of seconds when that fits in an
   * int64 count of nanoseconds, and three seconds when none is configured.
   */
  lemma TimeoutOverride(g: Option<GlobalOptions>, w: WechatOptions)
    ensures var s := Resolve(Some(ReceiverOptions(g, Some(w))));
      (w.notificationTimeout.None? ==> s.timeout == DefaultSendTimeout)
      && (w.notificationTimeout.Some? && -9_223_372_036 <= w.notificationTimeout.value <= 9_223_372_036 ==>
            s.timeout == w.notificationTimeout.value * Second)
  {
  }
}
