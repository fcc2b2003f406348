/**
 The hit sender: one instance per analytics property, posting form-encoded
 payloads to the collection endpoint or to its validation ("debug") variant.
 The HTTP exchange itself is not modelled; a send is recorded as an entry of a
 log of posts, in the order the posts are made.
 */
module Transport {
  import opened Hits

  const CollectUrl: string := "https://www.google-analytics.com/collect"
  const DebugCollectUrl: string := "https://www.google-analytics.com/debug/collect"
  const UserAgent: string := "Python Script"

  datatype Sender = Sender(property: string, headers: map<string, string>, url: string)

  /** One HTTP POST: the sender that made it and the form data it carried. */
  datatype Post = Post(sender: Sender, payload: Payload)

  /** A sender for `property`; `debug` selects the validation endpoint. */
  function NewSender(property: string, debug: bool): (s: Sender)
    ensures s.property == property
    ensures s.headers == map["User-Agent" := UserAgent]
    ensures s.url == (if debug then DebugCollectUrl else CollectUrl)
  {
    var headers := map["User-Agent" := UserAgent];
    if debug then Sender(property, headers, DebugCollectUrl)
    else Sender(property, headers, CollectUrl)
  }

  /** The validation endpoint is used exactly when `debug` is set, the
      collection endpoint exactly when it is not. */
  lemma DebugSelectsEndpoint(property: string, debug: bool)
    ensures NewSender(property, debug).url == DebugCollectUrl <==> debug
    ensures NewSender(property, debug).url == CollectUrl <==> !debug
  {
    assert |CollectUrl| < |DebugCollectUrl|;
  }

  /** Posts `payload` through `s`: the log grows by exactly that post. */
  function SendEvent(log: seq<Post>, s: Sender, payload: Payload): (log': seq<Post>)
    ensures |log'| == |log| + 1
    ensures forall i :: 0 <= i < |log| ==> log'[i] == log[i]
    ensures log'[|log|] == Post(s, payload)
  {
    log + [Post(s, payload)]
  }
}
