/**
 * The orchestration rules of the assistant backend: extracting the reply
 * from a thread's messages, dispatching tool calls, polling a run, ingesting
 * files, creating the thread and the assistant, and deleting a user's remote
 * objects.
 *
 * The remote Assistants API is an oracle: what a call answers is a
 * parameter (a scripted sequence of run states, the thread's message list,
 * the per-URL fetch and upload results, the outcome of a retrieve), and what
 * the code asks of it is returned as a log of `Effect`s, in order.
 */
module Playground {
  import opened Wrappers
  import FileRecord
  import KV = KVStore

  // ---------------------------------------------------------------------
  // Shapes

  /** One content item of a thread message. */
  datatype Content =
    | Text(value: Option<string>)
    | ImageFile(fileId: string)
    | OtherContent

  datatype Message = Message(role: string, content: seq<Content>)

  /** `ResponseMessage`: the content is always present in what this code builds. */
  datatype ResponseMessage = ResponseMessage(role: string, content: string, imageContent: Option<string>)

  /** The exceptions the code lets escape. */
  datatype Error =
    | AttributeError          // `kvitem_user_id.value` on a user without a stored uuid
    | KeyError(key: string)   // a tool call without a required argument
    | ValueError(message: string)
    | UploadError             // `client.files.create` raised
    | ToolError(tool: string) // the price lookup or the email POST raised

  datatype Outcome<T> = Returned(value: T) | Raised(error: Error)

  /**
   * A tool call the run asks for, with its arguments already parsed from
   * JSON, and whether the tool itself raises once it is run (an unknown
   * ticker has no closing price; the email POST can fail).
   */
  datatype ToolCall = ToolCall(id: string, name: string, arguments: map<string, string>, toolRaises: bool)

  /** The output of a tool: a stock price (whatever the market-data lookup answers) or a literal. */
  datatype OutputValue = PriceOf(symbol: string) | Literal(text: string)

  datatype ToolOutput = ToolOutput(toolCallId: string, output: OutputValue)

  /** What the code asks of the outside world, in the order it asks. */
  datatype Effect =
    | DownloadedImage(fileId: string)
    | WroteImage(path: string)
    | LookedUpPrice(symbol: string)
    | SentEmail(uri: string, to: string, content: string)
    | SubmittedOutputs(threadId: string, runId: string, outputs: seq<ToolOutput>)
    | PostedMessage(threadId: string, prompt: string)
    | CreatedRun(threadId: string, assistantId: string, instructions: string)
    | RetrievedRun(runId: string)
    | Slept(seconds: nat)
    | ListedMessages(threadId: string)
    | UploadRequested(url: string, fetched: bool)
    | CreatedAssistant(name: string, instructions: string, tools: string, model: string, fileIds: seq<string>)
    | RetrievedThread(stored: KV.Item)     // `threads.retrieve`, handed the stored item itself
    | CreatedThread
    | RetrievedAssistant(stored: KV.Item)  // `assistants.retrieve`, handed the stored item itself
    | DeleteAssistantRequested(assistantId: string)
    | DeleteThreadRequested(threadId: string)
    | DeleteFileRequested(fileId: string)
    | RemoveFolderRequested(path: string)

  // ---------------------------------------------------------------------
  // Image folders (`__user_folders`)

  /** The folder an image is written to, and the URL prefix it is served under. */
  datatype Folders = Folders(disk: string, url: string)

  function FoldersFor(uid: string): Folders {
    Folders("wwwroot/images/" + uid + "/", "images/" + uid + "/")
  }

  /** `__user_folders`: None where reading `.value` of a missing uuid row raises. */
  function UserFolders(store: KV.Store, u: string): (r: Option<Folders>)
    reads store
    ensures r.None? <==> KV.Select(store.rows, KV.UserKey(u, KV.IdKey)) == []
    ensures r.Some? ==> exists item :: item in store.rows && item.username == u && item.key == KV.IdKey
                                       && r.value == FoldersFor(item.value)
  {
    match store.GetUserId(u)
    case None => None
    case Some(item) => Some(FoldersFor(item.value))
  }

  function ImagePath(f: Folders, fileId: string): string {
    f.disk + fileId + ".png"
  }

  function ImageUrl(f: Folders, fileId: string): string {
    f.url + "/" + fileId + ".png"
  }

  /** An image is saved under `wwwroot/images/<uuid>/` and served from `images/<uuid>//`, double slash included. */
  lemma ImageLocations(uid: string, fileId: string)
    ensures ImagePath(FoldersFor(uid), fileId) == "wwwroot/images/" + uid + "/" + fileId + ".png"
    ensures ImageUrl(FoldersFor(uid), fileId) == "images/" + uid + "//" + fileId + ".png"
  {
    assert "images/" + uid + "/" + "/" == "images/" + uid + "//";
  }

  // ---------------------------------------------------------------------
  // Message extraction (`get_response_messages`)

  /** The messages up to and including the first one whose role is "user" (all of them if none is). */
  function Prefix(ms: seq<Message>): seq<Message> {
    if ms == [] then []
    else if ms[0].role == "user" then [ms[0]]
    else [ms[0]] + Prefix(ms[1..])
  }

  /**
   * The prefix is a prefix of the thread, holds no user message before its
   * last, ends with a user message when it stops early, and is the whole
   * thread when no message is the user's.
   */
  lemma {:induction false} PrefixShape(ms: seq<Message>)
    ensures Prefix(ms) <= ms
    ensures forall i | 0 <= i < |Prefix(ms)| - 1 :: Prefix(ms)[i].role != "user"
    ensures |Prefix(ms)| < |ms| ==> |Prefix(ms)| > 0 && Prefix(ms)[|Prefix(ms)| - 1].role == "user"
    ensures (forall i | 0 <= i < |ms| :: ms[i].role != "user") ==> Prefix(ms) == ms
  {
    if ms != [] && ms[0].role != "user" {
      var rest := ms[1..];
      PrefixShape(rest);
      assert ms == [ms[0]] + rest;
      var p := Prefix(ms);
      assert p == [ms[0]] + Prefix(rest);
      assert forall i | 1 <= i < |p| :: p[i] == Prefix(rest)[i - 1];
      if forall i | 0 <= i < |ms| :: ms[i].role != "user" {
        assert forall i | 0 <= i < |rest| :: rest[i] == ms[i + 1];
      }
    }
  }

  function Reverse<T>(s: seq<T>): seq<T> {
    if s == [] then [] else Reverse(s[1..]) + [s[0]]
  }

  /** Reversal keeps the length and reads the elements from the back. */
  lemma {:induction false} ReverseShape<T>(s: seq<T>)
    ensures |Reverse(s)| == |s|
    ensures forall i | 0 <= i < |s| :: Reverse(s)[i] == s[|s| - 1 - i]
  {
    if s != [] {
      ReverseShape(s[1..]);
    }
  }

  /** A message's content items, each tagged with the message's role. */
  function Tagged(m: Message): (r: seq<(string, Content)>)
    ensures |r| == |m.content|
  {
    TagItems(m.role, m.content)
  }

  function TagItems(role: string, cs: seq<Content>): (r: seq<(string, Content)>)
    ensures |r| == |cs|
  {
    if cs == [] then [] else TagItems(role, cs[..|cs| - 1]) + [(role, cs[|cs| - 1])]
  }

  /** The `j`-th tagged item is the `j`-th content item with the message's role. */
  lemma {:induction false} TaggedAt(m: Message, j: nat)
    requires j < |m.content|
    ensures Tagged(m)[j] == (m.role, m.content[j])
  {
    TagItemsAt(m.role, m.content, j);
  }

  lemma {:induction false} TagItemsAt(role: string, cs: seq<Content>, j: nat)
    requires j < |cs|
    ensures TagItems(role, cs)[j] == (role, cs[j])
  {
    if j < |cs| - 1 {
      var init := cs[..|cs| - 1];
      assert init[j] == cs[j];
      TagItemsAt(role, init, j);
    }
  }

  /** All content items of the messages, in order. */
  function Flatten(ms: seq<Message>): seq<(string, Content)> {
    if ms == [] then [] else Flatten(ms[..|ms| - 1]) + Tagged(ms[|ms| - 1])
  }

  /** A text item with a non-empty value or an image item gives one response message. */
  predicate Yields(item: (string, Content)) {
    match item.1
    case Text(v) => v.Some? && v.value != ""
    case ImageFile(_) => true
    case OtherContent => false
  }

  function ToResponse(item: (string, Content), f: Folders): ResponseMessage
    requires Yields(item)
  {
    match item.1
    case Text(v) => ResponseMessage(item.0, v.value, None)
    case ImageFile(fid) => ResponseMessage(item.0, "", Some(ImageUrl(f, fid)))
  }

  /**
   * A non-empty text answers its text with no image; an image of the user
   * with uuid `uid` answers empty content and `images/<uid>//<file_id>.png`.
   */
  lemma ResponseShapes(role: string, t: string, fid: string, uid: string)
    ensures t != "" ==> ToResponse((role, Text(Some(t))), FoldersFor(uid)) == ResponseMessage(role, t, None)
    ensures ToResponse((role, ImageFile(fid)), FoldersFor(uid)) ==
            ResponseMessage(role, "", Some("images/" + uid + "//" + fid + ".png"))
  {
    ImageLocations(uid, fid);
  }

  /** The response messages of the items, in item order. */
  function Respond(items: seq<(string, Content)>, f: Folders): seq<ResponseMessage> {
    if items == [] then []
    else
      var last := items[|items| - 1];
      Respond(items[..|items| - 1], f) + (if Yields(last) then [ToResponse(last, f)] else [])
  }

  /** The file id of the first image item, if any. */
  function FirstImageOf(items: seq<(string, Content)>): Option<string> {
    if items == [] then None
    else if items[0].1.ImageFile? then Some(items[0].1.fileId)
    else FirstImageOf(items[1..])
  }

  /** Each image is downloaded, then written into the user's folder. */
  function ImageEffects(items: seq<(string, Content)>, f: Folders): seq<Effect> {
    if items == [] then []
    else
      var last := items[|items| - 1];
      ImageEffects(items[..|items| - 1], f)
        + (if last.1.ImageFile? then [DownloadedImage(last.1.fileId), WroteImage(ImagePath(f, last.1.fileId))] else [])
  }

  const NoFolders: Folders := Folders("", "")

  datatype Extraction = Extraction(result: Outcome<seq<ResponseMessage>>, effects: seq<Effect>)

  /**
   * What `get_response_messages` answers and does, given the user's image
   * folders: on a user without a stored uuid, the first image is downloaded
   * and then the folder lookup raises.
   */
  function Extract(ms: seq<Message>, folders: Option<Folders>): Extraction {
    var items := Flatten(Reverse(Prefix(ms)));
    match folders
    case Some(f) => Extraction(Returned(Respond(items, f)), ImageEffects(items, f))
    case None =>
      match FirstImageOf(items)
      case None => Extraction(Returned(Respond(items, NoFolders)), [])
      case Some(fid) => Extraction(Raised(AttributeError), [DownloadedImage(fid)])
  }

  lemma {:induction false} FlattenConcat(a: seq<Message>, b: seq<Message>)
    ensures Flatten(a + b) == Flatten(a) + Flatten(b)
  {
    if b == [] {
      assert a + b == a;
    } else {
      var init, x := b[..|b| - 1], b[|b| - 1];
      assert b == init + [x];
      assert a + b == (a + init) + [x];
      FlattenConcat(a, init);
      FlattenSnoc(a + init, x);
      FlattenSnoc(init, x);
    }
  }

  lemma {:induction false} RespondConcat(a: seq<(string, Content)>, b: seq<(string, Content)>, f: Folders)
    ensures Respond(a + b, f) == Respond(a, f) + Respond(b, f)
  {
    if b == [] {
      assert a + b == a;
    } else {
      assert (a + b)[..|a + b| - 1] == a + b[..|b| - 1];
      RespondConcat(a, b[..|b| - 1], f);
    }
  }

  /** Appending to items without an image: the first image is the new item, if it is one. */
  lemma {:induction false} FirstImageSnoc(seen: seq<(string, Content)>, x: (string, Content))
    requires FirstImageOf(seen) == None
    ensures FirstImageOf(seen + [x]) == if x.1.ImageFile? then Some(x.1.fileId) else None
  {
    if seen == [] {
      assert seen + [x] == [x];
    } else {
      assert (seen + [x])[0] == seen[0] && (seen + [x])[1..] == seen[1..] + [x];
      FirstImageSnoc(seen[1..], x);
    }
  }

  /** An image comes first when no earlier item is an image. */
  lemma {:induction false} FirstImageAt(items: seq<(string, Content)>, k: nat)
    requires k < |items| && items[k].1.ImageFile? && FirstImageOf(items[..k]) == None
    ensures FirstImageOf(items) == Some(items[k].1.fileId)
  {
    if k > 0 {
      assert items[..k][0] == items[0] && items[..k][1..] == items[1..][..k - 1];
      FirstImageAt(items[1..], k - 1);
    }
  }

  lemma {:induction false} ImageEffectsConcat(a: seq<(string, Content)>, b: seq<(string, Content)>, f: Folders)
    ensures ImageEffects(a + b, f) == ImageEffects(a, f) + ImageEffects(b, f)
  {
    if b == [] {
      assert a + b == a;
    } else {
      assert (a + b)[..|a + b| - 1] == a + b[..|b| - 1];
      ImageEffectsConcat(a, b[..|b| - 1], f);
    }
  }

  /** The prefix stops at the first user message, which therefore leads the reversed list. */
  lemma {:induction false} PrefixAtFirstUser(ms: seq<Message>, i: nat)
    requires i < |ms| && ms[i].role == "user"
    requires forall k | 0 <= k < i :: ms[k].role != "user"
    ensures Prefix(ms) == ms[..i + 1]
    ensures Reverse(Prefix(ms))[0] == ms[i]
  {
    if i > 0 {
      assert ms[1..][i - 1] == ms[i];
      PrefixAtFirstUser(ms[1..], i - 1);
      assert ms[..i + 1] == [ms[0]] + ms[1..][..i];
    }
    ReverseShape(Prefix(ms));
  }

  /** At most one response message per content item of the prefix. */
  lemma {:induction false} RespondBound(items: seq<(string, Content)>, f: Folders)
    ensures |Respond(items, f)| <= |items|
  {
    if items != [] {
      RespondBound(items[..|items| - 1], f);
    }
  }

  /** Every response message comes from a yielding item of the same role, text as is, images by URL. */
  lemma {:induction false} RespondFrom(items: seq<(string, Content)>, f: Folders, r: ResponseMessage)
    requires r in Respond(items, f)
    ensures exists j :: 0 <= j < |items| && Yields(items[j]) && r == ToResponse(items[j], f)
  {
    var init := items[..|items| - 1];
    if r in Respond(init, f) {
      RespondFrom(init, f, r);
      var j :| 0 <= j < |init| && Yields(init[j]) && r == ToResponse(init[j], f);
      assert items[j] == init[j];
    } else {
      assert r == ToResponse(items[|items| - 1], f);
    }
  }

  /** Every non-empty text item and every image item yields its response message. */
  lemma {:induction false} RespondTo(items: seq<(string, Content)>, f: Folders, j: nat)
    requires j < |items| && Yields(items[j])
    ensures ToResponse(items[j], f) in Respond(items, f)
  {
    if j < |items| - 1 {
      var init := items[..|items| - 1];
      assert init[j] == items[j];
      RespondTo(init, f, j);
    }
  }

  /** When every item is a non-empty text, the reply is those texts one for one, in order. */
  lemma {:induction false} RespondAllText(items: seq<(string, Content)>, f: Folders)
    requires forall j | 0 <= j < |items| :: items[j].1.Text? && items[j].1.value.Some? && items[j].1.value.value != ""
    ensures |Respond(items, f)| == |items|
    ensures forall j | 0 <= j < |items| ::
              Respond(items, f)[j] == ResponseMessage(items[j].0, items[j].1.value.value, None)
  {
    if items != [] {
      var init := items[..|items| - 1];
      RespondAllText(init, f);
    }
  }

  /**
   * A thread whose newest message is the user's text is answered with that
   * text alone, whatever came before it (newest first: `bye` from the user,
   * then `hello`, then `hi`, gives `bye`).
   */
  lemma NewestUserTextOnly(t: string, older: seq<Message>, folders: Option<Folders>)
    requires t != ""
    ensures Extract([Message("user", [Text(Some(t))])] + older, folders).result ==
            Returned([ResponseMessage("user", t, None)])
  {
    var m := Message("user", [Text(Some(t))]);
    var ms := [m] + older;
    assert ms[0] == m;
    assert Prefix(ms) == [m];
    assert [m][1..] == [];
    assert Reverse([m]) == [m];
    assert [m][..0] == [];
    var item := ("user", Text(Some(t)));
    assert m.content[..0] == [];
    assert Tagged(m) == [item];
    assert Flatten([m]) == [item];
    assert [item][..0] == [];
    assert FirstImageOf([item]) == None;
    var f := folders.GetOr(NoFolders);
    assert Yields(item) && ToResponse(item, f) == ResponseMessage("user", t, None);
    assert Respond([item], f) == Respond([], f) + [ToResponse(item, f)];
    assert Flatten(Reverse(Prefix(ms))) == [item];
    assert Extract(ms, folders).result == Returned(Respond([item], f));
    assert Respond([item], f) == [ResponseMessage("user", t, None)];
  }

  /** The first loop of `get_response_messages`: collect messages up to and including the first user message. */
  method CollectPrefix(messages: seq<Message>) returns (messageList: seq<Message>)
    ensures messageList == Prefix(messages)
  {
    messageList := [];
    var i := 0;
    while i < |messages|
      invariant 0 <= i <= |messages|
      invariant messageList == messages[..i]
      invariant forall k | 0 <= k < i :: messages[k].role != "user"
    {
      messageList := messageList + [messages[i]];
      if messages[i].role == "user" {
        PrefixAtFirstUser(messages, i);
        return;
      }
      i := i + 1;
    }
    assert messages[..i] == messages;
    PrefixShape(messages);
  }

  /** `get_response_messages`: collect the prefix, reverse it, and map its content items. */
  method GetResponseMessages(store: KV.Store, messages: seq<Message>, u: string)
    returns (r: Outcome<seq<ResponseMessage>>, effects: seq<Effect>)
    ensures r == Extract(messages, UserFolders(store, u)).result
    ensures effects == Extract(messages, UserFolders(store, u)).effects
  {
    var messageList := CollectPrefix(messages);
    messageList := Reverse(messageList);

    ghost var folders := UserFolders(store, u);
    var responses: seq<ResponseMessage> := [];
    effects := [];
    var m := 0;
    while m < |messageList|
      invariant 0 <= m <= |messageList|
      invariant Accumulated(Flatten(messageList[..m]), responses, effects, folders)
    {
      var stopped;
      responses, effects, stopped := RespondToItems(store, u, messageList[m], Flatten(messageList[..m]), responses, effects);
      if stopped.Some? {
        ExtractRaises(messages, messageList, m, stopped.value);
        return Raised(AttributeError), effects;
      }
      StepMessage(messageList, m);
      m := m + 1;
    }
    assert messageList[..|messageList|] == messageList;
    r := Returned(responses);
  }

  /** The reply and the effects so far are those of the items seen so far. */
  ghost predicate Accumulated(seen: seq<(string, Content)>, responses: seq<ResponseMessage>, effects: seq<Effect>,
                              folders: Option<Folders>)
  {
    && responses == Respond(seen, folders.GetOr(NoFolders))
    && (folders.Some? ==> effects == ImageEffects(seen, folders.value))
    && (folders.None? ==> FirstImageOf(seen) == None && effects == [])
  }

  /**
   * The inner loop of `get_response_messages`, over one message's content
   * items. `stopped` is the index of the image whose folder lookup raised.
   */
  method RespondToItems(store: KV.Store, u: string, message: Message, ghost before: seq<(string, Content)>,
                        responses0: seq<ResponseMessage>, effects0: seq<Effect>)
    returns (responses: seq<ResponseMessage>, effects: seq<Effect>, stopped: Option<nat>)
    requires Accumulated(before, responses0, effects0, UserFolders(store, u))
    ensures stopped.None? ==> Accumulated(before + Tagged(message)[..|message.content|], responses, effects, UserFolders(store, u))
    ensures stopped.Some? ==>
              && UserFolders(store, u).None?
              && stopped.value < |message.content|
              && message.content[stopped.value].ImageFile?
              && FirstImageOf(before + Tagged(message)[..stopped.value]) == None
              && effects == [DownloadedImage(message.content[stopped.value].fileId)]
  {
    ghost var folders := UserFolders(store, u);
    ghost var f := folders.GetOr(NoFolders);
    ghost var t := Tagged(message);
    ghost var seen := before;
    responses, effects := responses0, effects0;
    assert before + t[..0] == before;
    var j := 0;
    while j < |message.content|
      invariant 0 <= j <= |message.content|
      invariant seen == before + t[..j]
      invariant Accumulated(seen, responses, effects, folders)
    {
      var item := message.content[j];
      TaggedAt(message, j);
      assert t[j] == (message.role, item);
      StepItem(seen, t[j], f);
      match item {
        case Text(v) =>
          if v.Some? && v.value != "" {
            responses := responses + [ResponseMessage(message.role, v.value, None)];
          }
        case ImageFile(fid) =>
          effects := effects + [DownloadedImage(fid)];
          var found := UserFolders(store, u);
          if found.None? {
            return responses, effects, Some(j);
          }
          var folder := found.value;
          effects := effects + [WroteImage(ImagePath(folder, fid))];
          responses := responses + [ResponseMessage(message.role, "", Some(ImageUrl(folder, fid)))];
        case OtherContent =>
      }
      assert seen + [t[j]] == before + t[..j + 1];
      seen := seen + [t[j]];
      j := j + 1;
    }
    stopped := None;
  }

  /** One more content item extends the reply, the image list and the image effects by that item's share. */
  lemma StepItem(seen: seq<(string, Content)>, x: (string, Content), f: Folders)
    ensures Respond(seen + [x], f) == Respond(seen, f) + (if Yields(x) then [ToResponse(x, f)] else [])
    ensures FirstImageOf(seen) == None ==>
              FirstImageOf(seen + [x]) == if x.1.ImageFile? then Some(x.1.fileId) else None
    ensures ImageEffects(seen + [x], f) ==
            ImageEffects(seen, f)
              + (if x.1.ImageFile? then [DownloadedImage(x.1.fileId), WroteImage(ImagePath(f, x.1.fileId))] else [])
  {
    assert (seen + [x])[..|seen|] == seen;
    if FirstImageOf(seen) == None {
      FirstImageSnoc(seen, x);
    }
  }

  /** One more message extends the flattened items by that message's items. */
  lemma StepMessage(ml: seq<Message>, m: nat)
    requires m < |ml|
    ensures Flatten(ml[..m + 1]) == Flatten(ml[..m]) + Tagged(ml[m])[..|ml[m].content|]
  {
    assert ml[..m + 1][..m] == ml[..m];
    var t := Tagged(ml[m]);
    assert t[..|ml[m].content|] == t;
  }

  /** One more message extends the flattened items by its tagged items. */
  lemma FlattenSnoc(ms: seq<Message>, x: Message)
    ensures Flatten(ms + [x]) == Flatten(ms) + Tagged(x)
  {
    assert (ms + [x])[..|ms|] == ms;
  }

  /** The flattened items around the `m`-th message. */
  lemma FlattenAround(ml: seq<Message>, m: nat)
    requires m < |ml|
    ensures Flatten(ml) == Flatten(ml[..m]) + Tagged(ml[m]) + Flatten(ml[m + 1..])
  {
    SliceAround(ml, m);
    FlattenSplit(ml[..m + 1], ml[m + 1..], ml[..m], ml[m]);
  }

  lemma FlattenSplit(left: seq<Message>, after: seq<Message>, before: seq<Message>, x: Message)
    requires left == before + [x]
    ensures Flatten(left + after) == Flatten(before) + Tagged(x) + Flatten(after)
  {
    FlattenConcat(left, after);
    FlattenSnoc(before, x);
  }

  /** The image at item `j` of message `m` is the first image of all when none comes before it. */
  lemma FirstImage(ml: seq<Message>, m: nat, j: nat)
    requires m < |ml| && j < |ml[m].content| && ml[m].content[j].ImageFile?
    requires FirstImageOf(Flatten(ml[..m]) + Tagged(ml[m])[..j]) == None
    ensures FirstImageOf(Flatten(ml)) == Some(ml[m].content[j].fileId)
  {
    var before, after := Flatten(ml[..m]), Flatten(ml[m + 1..]);
    var t := Tagged(ml[m]);
    var items := Flatten(ml);
    FlattenAround(ml, m);
    var k := |before| + j;
    TaggedAt(ml[m], j);
    assert items[k] == t[j];
    assert items[..k] == before + t[..j];
    FirstImageAt(items, k);
  }

  /** Where extraction meets an image of a user without a uuid, it raises after downloading that first image. */
  lemma ExtractRaises(messages: seq<Message>, messageList: seq<Message>, m: nat, j: nat)
    requires messageList == Reverse(Prefix(messages))
    requires m < |messageList| && j < |messageList[m].content|
    requires messageList[m].content[j].ImageFile?
    requires FirstImageOf(Flatten(messageList[..m]) + Tagged(messageList[m])[..j]) == None
    ensures Extract(messages, None) ==
            Extraction(Raised(AttributeError), [DownloadedImage(messageList[m].content[j].fileId)])
  {
    FirstImage(messageList, m, j);
  }

  // ---------------------------------------------------------------------
  // Tool-call dispatch (`call_functions`)

  const StockPriceTool: string := "get_stock_price"
  const SendEmailTool: string := "send_email"
  const EmailSentOutput: string := "Email sent"

  /** What one tool call answers, and the side effects it causes on the way. */
  datatype Invocation = Invocation(output: Outcome<ToolOutput>, effects: seq<Effect>)

  /**
   * One tool call: a missing argument raises before the tool runs; a tool
   * that raises does so after its side effect was asked for.
   */
  function Invoke(call: ToolCall, emailUri: string): Invocation {
    if call.name == StockPriceTool then
      if "symbol" !in call.arguments then Invocation(Raised(KeyError("symbol")), [])
      else
        var symbol := call.arguments["symbol"];
        Invocation(if call.toolRaises then Raised(ToolError(StockPriceTool)) else Returned(ToolOutput(call.id, PriceOf(symbol))),
                   [LookedUpPrice(symbol)])
    else if call.name == SendEmailTool then
      if "to" !in call.arguments then Invocation(Raised(KeyError("to")), [])
      else if "content" !in call.arguments then Invocation(Raised(KeyError("content")), [])
      else
        var to, content := call.arguments["to"], call.arguments["content"];
        Invocation(if call.toolRaises then Raised(ToolError(SendEmailTool)) else Returned(ToolOutput(call.id, Literal(EmailSentOutput))),
                   [SentEmail(emailUri, to, content)])
    else Invocation(Raised(ValueError("Unknown function: " + call.name)), [])
  }

  /** The outputs gathered and the side effects caused before the loop ends or raises. */
  datatype Dispatch = Dispatch(outputs: seq<ToolOutput>, effects: seq<Effect>, error: Option<Error>)

  function DispatchAll(calls: seq<ToolCall>, emailUri: string): Dispatch {
    if calls == [] then Dispatch([], [], None)
    else
      var d := DispatchAll(calls[..|calls| - 1], emailUri);
      if d.error.Some? then d
      else
        var inv := Invoke(calls[|calls| - 1], emailUri);
        match inv.output
        case Raised(e) => Dispatch(d.outputs, d.effects + inv.effects, Some(e))
        case Returned(o) => Dispatch(d.outputs + [o], d.effects + inv.effects, None)
  }

  /** `call_functions`: the effects end with one submission, made only when no call raised. */
  function CallEffects(threadId: string, runId: string, calls: seq<ToolCall>, emailUri: string): seq<Effect> {
    var d := DispatchAll(calls, emailUri);
    d.effects + (if d.error.None? then [SubmittedOutputs(threadId, runId, d.outputs)] else [])
  }

  /** A call the dispatcher serves: a known name with its required arguments, and a tool that does not raise. */
  predicate Served(call: ToolCall) {
    && !call.toolRaises
    && (|| (call.name == StockPriceTool && "symbol" in call.arguments)
        || (call.name == SendEmailTool && "to" in call.arguments && "content" in call.arguments))
  }

  /**
   * The batch runs without an exception exactly when every call has a known
   * name and its arguments, and no tool raises.
   */
  lemma {:induction false} DispatchSucceeds(calls: seq<ToolCall>, emailUri: string)
    ensures DispatchAll(calls, emailUri).error.None? <==> forall k | 0 <= k < |calls| :: Served(calls[k])
  {
    if calls != [] {
      var init := calls[..|calls| - 1];
      DispatchSucceeds(init, emailUri);
      assert forall k | 0 <= k < |init| :: init[k] == calls[k];
    }
  }

  /**
   * Without an exception there is exactly one output per call, in call order,
   * carrying the call's id; a price call outputs the price of its symbol and
   * an email call the literal "Email sent".
   */
  lemma {:induction false} DispatchOutputs(calls: seq<ToolCall>, emailUri: string)
    ensures var d := DispatchAll(calls, emailUri);
            d.error.None? ==>
              && |d.outputs| == |calls|
              && (forall k | 0 <= k < |calls| :: d.outputs[k].toolCallId == calls[k].id)
              && (forall k | 0 <= k < |calls| && calls[k].name == SendEmailTool ::
                    d.outputs[k].output == Literal(EmailSentOutput))
              && (forall k | 0 <= k < |calls| && calls[k].name == StockPriceTool ::
                    "symbol" in calls[k].arguments && d.outputs[k].output == PriceOf(calls[k].arguments["symbol"]))
  {
    if calls != [] {
      var init := calls[..|calls| - 1];
      DispatchOutputs(init, emailUri);
      InvokeOutput(calls[|calls| - 1], emailUri);
      var d0, out := DispatchAll(init, emailUri), Invoke(calls[|calls| - 1], emailUri).output;
      if d0.error.None? && out.Returned? {
        assert DispatchAll(calls, emailUri).outputs == d0.outputs + [out.value];
        assert forall k | 0 <= k < |init| :: init[k] == calls[k];
      }
    }
  }

  /** A call that returns answers under its own id: the price of its symbol, or "Email sent". */
  lemma InvokeOutput(call: ToolCall, emailUri: string)
    ensures var out := Invoke(call, emailUri).output;
            out.Returned? ==>
              && out.value.toolCallId == call.id
              && (call.name == SendEmailTool ==> out.value.output == Literal(EmailSentOutput))
              && (call.name == StockPriceTool ==>
                    "symbol" in call.arguments && out.value.output == PriceOf(call.arguments["symbol"]))
  {
  }

  /** Nothing is submitted before the loop ends: dispatching itself never submits. */
  lemma {:induction false} DispatchNeverSubmits(calls: seq<ToolCall>, emailUri: string)
    ensures forall e | e in DispatchAll(calls, emailUri).effects :: !e.SubmittedOutputs?
  {
    if calls != [] {
      DispatchNeverSubmits(calls[..|calls| - 1], emailUri);
    }
  }

  /**
   * A call that raises stops the batch: the error is that call's, the side
   * effects of the calls before it have happened, followed by what the
   * raising call itself asked for, and nothing is submitted.
   */
  lemma {:induction false} DispatchStopsAt(threadId: string, runId: string, calls: seq<ToolCall>, emailUri: string, k: nat)
    requires k < |calls| && !Served(calls[k])
    requires forall i | 0 <= i < k :: Served(calls[i])
    ensures Invoke(calls[k], emailUri).output.Raised?
    ensures DispatchAll(calls, emailUri).error == Some(Invoke(calls[k], emailUri).output.error)
    ensures DispatchAll(calls, emailUri).effects ==
            DispatchAll(calls[..k], emailUri).effects + Invoke(calls[k], emailUri).effects
    ensures forall e | e in CallEffects(threadId, runId, calls, emailUri) :: !e.SubmittedOutputs?
  {
    if k == |calls| - 1 {
      DispatchSucceeds(calls[..k], emailUri);
      assert forall i | 0 <= i < k :: calls[..k][i] == calls[i];
    } else {
      var init := calls[..|calls| - 1];
      assert init[..k] == calls[..k];
      DispatchStopsAt(threadId, runId, init, emailUri, k);
    }
    DispatchNeverSubmits(calls, emailUri);
  }

  /** `call_functions`: run each call in order, then submit all outputs at once. */
  method CallFunctions(threadId: string, runId: string, calls: seq<ToolCall>, emailUri: string)
    returns (error: Option<Error>, effects: seq<Effect>)
    ensures error == DispatchAll(calls, emailUri).error
    ensures effects == CallEffects(threadId, runId, calls, emailUri)
  {
    var toolOutputs: seq<ToolOutput> := [];
    effects := [];
    var i := 0;
    while i < |calls|
      invariant 0 <= i <= |calls|
      invariant DispatchAll(calls[..i], emailUri) == Dispatch(toolOutputs, effects, None)
    {
      var action := calls[i];
      assert calls[..i + 1][..i] == calls[..i];
      if action.name == StockPriceTool {
        if "symbol" !in action.arguments {
          DispatchPrefixError(calls, emailUri, i);
          return Some(KeyError("symbol")), effects;
        }
        var symbol := action.arguments["symbol"];
        effects := effects + [LookedUpPrice(symbol)];
        if action.toolRaises {
          DispatchPrefixError(calls, emailUri, i);
          return Some(ToolError(StockPriceTool)), effects;
        }
        toolOutputs := toolOutputs + [ToolOutput(action.id, PriceOf(symbol))];
      } else if action.name == SendEmailTool {
        if "to" !in action.arguments {
          DispatchPrefixError(calls, emailUri, i);
          return Some(KeyError("to")), effects;
        }
        if "content" !in action.arguments {
          DispatchPrefixError(calls, emailUri, i);
          return Some(KeyError("content")), effects;
        }
        var to, content := action.arguments["to"], action.arguments["content"];
        effects := effects + [SentEmail(emailUri, to, content)];
        if action.toolRaises {
          DispatchPrefixError(calls, emailUri, i);
          return Some(ToolError(SendEmailTool)), effects;
        }
        toolOutputs := toolOutputs + [ToolOutput(action.id, Literal(EmailSentOutput))];
      } else {
        DispatchPrefixError(calls, emailUri, i);
        return Some(ValueError("Unknown function: " + action.name)), effects;
      }
      i := i + 1;
    }
    assert calls[..|calls|] == calls;
    error := None;
    effects := effects + [SubmittedOutputs(threadId, runId, toolOutputs)];
  }

  /** Once the call at `i` raises, later calls change nothing. */
  lemma {:induction false} DispatchPrefixError(calls: seq<ToolCall>, emailUri: string, i: nat)
    requires i < |calls| && DispatchAll(calls[..i], emailUri).error.None?
    requires Invoke(calls[i], emailUri).output.Raised?
    ensures DispatchAll(calls, emailUri) ==
            Dispatch(DispatchAll(calls[..i], emailUri).outputs,
                     DispatchAll(calls[..i], emailUri).effects + Invoke(calls[i], emailUri).effects,
                     Some(Invoke(calls[i], emailUri).output.error))
  {
    if i == |calls| - 1 {
      assert calls[..|calls| - 1] == calls[..i];
    } else {
      var init := calls[..|calls| - 1];
      assert init[..i] == calls[..i] && init[i] == calls[i];
      DispatchPrefixError(init, emailUri, i);
    }
  }

  // ---------------------------------------------------------------------
  // Run-status polling (`process_prompt`)

  /** One answer of `runs.retrieve`: the status, and for "requires_action" the tool calls asked for. */
  datatype RunState = RunState(status: string, toolCalls: seq<ToolCall>)

  /**
   * What the prompt comes to: extracted messages, an exception, or, when the
   * scripted statuses run out before a terminal one, a loop still polling.
   */
  datatype PromptResult = Answered(messages: seq<ResponseMessage>) | Failed(error: Error) | StillPolling

  datatype Polling = Polling(result: PromptResult, effects: seq<Effect>)

  predicate Terminal(status: string) {
    status == "completed" || status == "failed" || status == "expired" || status == "cancelled"
  }

  /** What a finished run answers: its extracted messages, or the exception extraction raised. */
  function Answer(extracted: Outcome<seq<ResponseMessage>>): PromptResult {
    match extracted
    case Returned(ms) => Answered(ms)
    case Raised(e) => Failed(e)
  }

  /** Whether one retrieved state ends the loop: a terminal status, or tool calls that raise. */
  predicate Finishes(state: RunState, emailUri: string) {
    || Terminal(state.status)
    || (state.status == "requires_action" && DispatchAll(state.toolCalls, emailUri).error.Some?)
  }

  /** What the loop answers when it ends on this state. */
  function StepResult(state: RunState, emailUri: string, history: seq<Message>, folders: Option<Folders>): PromptResult {
    if state.status == "completed" || state.status == "failed" then Answer(Extract(history, folders).result)
    else if state.status == "requires_action" && DispatchAll(state.toolCalls, emailUri).error.Some? then
      Failed(DispatchAll(state.toolCalls, emailUri).error.value)
    else Answered([])
  }

  /** The effects of one iteration: the retrieve, then listing and extraction, the tool calls, or a sleep. */
  function StepEffects(state: RunState, threadId: string, runId: string, emailUri: string,
                       history: seq<Message>, folders: Option<Folders>): seq<Effect>
  {
    [RetrievedRun(runId)]
      + if state.status == "completed" || state.status == "failed" then
          [ListedMessages(threadId)] + Extract(history, folders).effects
        else if state.status == "expired" || state.status == "cancelled" then []
        else if state.status == "requires_action" then CallEffects(threadId, runId, state.toolCalls, emailUri)
        else [Slept(5)]
  }

  /** The polling loop from the given run states on. */
  function Poll(script: seq<RunState>, threadId: string, runId: string, emailUri: string,
                history: seq<Message>, folders: Option<Folders>): Polling
  {
    if script == [] then Polling(StillPolling, [])
    else
      var effects := StepEffects(script[0], threadId, runId, emailUri, history, folders);
      if Finishes(script[0], emailUri) then Polling(StepResult(script[0], emailUri, history, folders), effects)
      else
        var rest := Poll(script[1..], threadId, runId, emailUri, history, folders);
        Polling(rest.result, effects + rest.effects)
  }

  /**
   * The loop is still polling exactly when no scripted status is terminal and
   * every "requires_action" batch was served without an exception.
   */
  lemma {:induction false} PollStillPolling(script: seq<RunState>, threadId: string, runId: string,
                                            emailUri: string, history: seq<Message>, folders: Option<Folders>)
    ensures Poll(script, threadId, runId, emailUri, history, folders).result == StillPolling <==>
            forall k | 0 <= k < |script| ::
              && !Terminal(script[k].status)
              && (script[k].status == "requires_action" ==>
                    DispatchAll(script[k].toolCalls, emailUri).error.None?)
  {
    if script != [] {
      PollStillPolling(script[1..], threadId, runId, emailUri, history, folders);
      assert forall k | 1 <= k < |script| :: script[1..][k - 1] == script[k];
    }
  }

  /** Each status that is neither terminal nor "requires_action" costs one retrieve and one 5-second sleep. */
  lemma {:induction false} PollWaits(waits: seq<RunState>, rest: seq<RunState>, threadId: string, runId: string,
                                     emailUri: string, history: seq<Message>, folders: Option<Folders>)
    requires forall k | 0 <= k < |waits| :: !Terminal(waits[k].status) && waits[k].status != "requires_action"
    ensures var all := Poll(waits + rest, threadId, runId, emailUri, history, folders);
            var after := Poll(rest, threadId, runId, emailUri, history, folders);
            && all.result == after.result
            && all.effects == WaitEffects(runId, |waits|) + after.effects
  {
    if waits == [] {
      assert waits + rest == rest;
    } else {
      var w := waits[0];
      assert (waits + rest)[0] == w && (waits + rest)[1..] == waits[1..] + rest;
      assert !Finishes(w, emailUri);
      assert StepEffects(w, threadId, runId, emailUri, history, folders) == [RetrievedRun(runId), Slept(5)];
      PollWaits(waits[1..], rest, threadId, runId, emailUri, history, folders);
      AppendAssoc([RetrievedRun(runId), Slept(5)], WaitEffects(runId, |waits| - 1),
                  Poll(rest, threadId, runId, emailUri, history, folders).effects);
    }
  }

  function WaitEffects(runId: string, n: nat): seq<Effect> {
    if n == 0 then [] else [RetrievedRun(runId), Slept(5)] + WaitEffects(runId, n - 1)
  }

  /**
   * Given the statuses `queued, requires_action, completed`, the requested
   * tools run once each in order, their outputs are submitted once without a
   * sleep in between, and the completed run's messages are returned.
   */
  lemma QueuedActionCompleted(calls: seq<ToolCall>, threadId: string, runId: string, emailUri: string,
                              history: seq<Message>, folders: Option<Folders>)
    requires forall k | 0 <= k < |calls| :: Served(calls[k])
    requires Extract(history, folders).result.Returned?
    ensures var script := [RunState("queued", []), RunState("requires_action", calls), RunState("completed", [])];
            var p := Poll(script, threadId, runId, emailUri, history, folders);
            var d := DispatchAll(calls, emailUri);
            && p.result == Answered(Extract(history, folders).result.value)
            && p.effects == [RetrievedRun(runId), Slept(5)]
                            + ([RetrievedRun(runId)] + (d.effects + [SubmittedOutputs(threadId, runId, d.outputs)]))
                            + ([RetrievedRun(runId), ListedMessages(threadId)] + Extract(history, folders).effects)
  {
    var q, act, done := RunState("queued", []), RunState("requires_action", calls), RunState("completed", []);
    var d := DispatchAll(calls, emailUri);
    var served := [RetrievedRun(runId)] + (d.effects + [SubmittedOutputs(threadId, runId, d.outputs)]);
    assert [q, act, done] == [q] + ([act] + [done]);
    assert [done] + [] == [done];
    PollCompleted("completed", [], threadId, runId, emailUri, history, folders);
    var p3 := Poll([done], threadId, runId, emailUri, history, folders);
    PollServed(calls, [done], threadId, runId, emailUri, history, folders);
    var p2 := Poll([act] + [done], threadId, runId, emailUri, history, folders);
    assert p2.effects == served + p3.effects;
    PollWaits([q], [act] + [done], threadId, runId, emailUri, history, folders);
    assert WaitEffects(runId, 1) == [RetrievedRun(runId), Slept(5)];
    Wrappers.AppendAssoc(WaitEffects(runId, 1), served, p3.effects);
  }

  /** A served "requires_action" state runs the tools, submits, and polls on without sleeping. */
  lemma PollServed(calls: seq<ToolCall>, rest: seq<RunState>, threadId: string, runId: string,
                   emailUri: string, history: seq<Message>, folders: Option<Folders>)
    requires forall k | 0 <= k < |calls| :: Served(calls[k])
    ensures var d := DispatchAll(calls, emailUri);
            var after := Poll(rest, threadId, runId, emailUri, history, folders);
            Poll([RunState("requires_action", calls)] + rest, threadId, runId, emailUri, history, folders) ==
            Polling(after.result, [RetrievedRun(runId)] + (d.effects + [SubmittedOutputs(threadId, runId, d.outputs)]) + after.effects)
  {
    DispatchSucceeds(calls, emailUri);
    var script := [RunState("requires_action", calls)] + rest;
    assert script[0] == RunState("requires_action", calls) && script[1..] == rest;
  }

  /**
   * A completed or a failed state lists the thread's messages and answers
   * what extraction gives; the two statuses are handled alike.
   */
  lemma PollCompleted(status: string, rest: seq<RunState>, threadId: string, runId: string,
                      emailUri: string, history: seq<Message>, folders: Option<Folders>)
    requires status == "completed" || status == "failed"
    ensures var x := Extract(history, folders);
            Poll([RunState(status, [])] + rest, threadId, runId, emailUri, history, folders) ==
            Polling(Answer(x.result), [RetrievedRun(runId), ListedMessages(threadId)] + x.effects)
  {
    var script := [RunState(status, [])] + rest;
    assert script[0] == RunState(status, []);
  }

  /** An expired or cancelled run answers an empty list, not an error, after any number of waits. */
  lemma ExpiredOrCancelled(waits: seq<RunState>, status: string, threadId: string, runId: string,
                           emailUri: string, history: seq<Message>, folders: Option<Folders>)
    requires forall k | 0 <= k < |waits| :: !Terminal(waits[k].status) && waits[k].status != "requires_action"
    requires status == "expired" || status == "cancelled"
    ensures Poll(waits + [RunState(status, [])], threadId, runId, emailUri, history, folders).result == Answered([])
  {
    PollWaits(waits, [RunState(status, [])], threadId, runId, emailUri, history, folders);
  }

  /** `process_prompt`: post the prompt, start a run, then poll it. */
  method ProcessPrompt(store: KV.Store, assistantId: string, threadId: string, runId: string, prompt: string,
                       now: string, emailUri: string, u: string, script: seq<RunState>, history: seq<Message>)
    returns (r: PromptResult, effects: seq<Effect>)
    ensures var p := Poll(script, threadId, runId, emailUri, history, UserFolders(store, u));
            && r == p.result
            && effects == [PostedMessage(threadId, prompt), CreatedRun(threadId, assistantId, RunInstructions(now))] + p.effects
  {
    ghost var folders := UserFolders(store, u);
    ghost var total := Poll(script, threadId, runId, emailUri, history, folders);
    effects := [PostedMessage(threadId, prompt), CreatedRun(threadId, assistantId, RunInstructions(now))];
    ghost var start := effects;
    var i := 0;
    while i < |script|
      invariant 0 <= i <= |script|
      invariant total.result == Poll(script[i..], threadId, runId, emailUri, history, folders).result
      invariant start + total.effects == effects + Poll(script[i..], threadId, runId, emailUri, history, folders).effects
    {
      assert script[i..][1..] == script[i + 1..];
      var done, result, stepEffects := PollOnce(store, script[i], threadId, runId, emailUri, u, history);
      effects := effects + stepEffects;
      if done {
        return result, effects;
      }
      i := i + 1;
    }
    r := StillPolling;
  }

  /** One iteration of the polling loop, on the state just retrieved. */
  method PollOnce(store: KV.Store, run: RunState, threadId: string, runId: string, emailUri: string, u: string,
                  history: seq<Message>)
    returns (done: bool, r: PromptResult, effects: seq<Effect>)
    ensures done == Finishes(run, emailUri)
    ensures done ==> r == StepResult(run, emailUri, history, UserFolders(store, u))
    ensures effects == StepEffects(run, threadId, runId, emailUri, history, UserFolders(store, u))
  {
    effects := [RetrievedRun(runId)];
    r := StillPolling;
    if run.status == "completed" || run.status == "failed" {
      effects := effects + [ListedMessages(threadId)];
      var extracted, written := GetResponseMessages(store, history, u);
      return true, Answer(extracted), effects + written;
    } else if run.status == "expired" || run.status == "cancelled" {
      return true, Answered([]), effects;
    } else if run.status == "requires_action" {
      var error, called := CallFunctions(threadId, runId, run.toolCalls, emailUri);
      effects := effects + called;
      if error.Some? {
        return true, Failed(error.value), effects;
      }
      done := false;
    } else {
      effects := effects + [Slept(5)];
      done := false;
    }
  }

  /** The run's instructions carry the current date and time. */
  function RunInstructions(now: string): string {
    "The current date and time is: " + now + "."
  }

  // ---------------------------------------------------------------------
  // URL handling: `os.path.basename(urlparse(url).path)`

  /** The index of the first `c` in `s`, or `|s|` when there is none. */
  function IndexOf(s: string, c: char): (i: nat)
    ensures i <= |s|
  {
    if s == [] then 0 else if s[0] == c then 0 else 1 + IndexOf(s[1..], c)
  }

  lemma {:induction false} IndexOfFirst(s: string, c: char)
    ensures IndexOf(s, c) < |s| ==> s[IndexOf(s, c)] == c
    ensures c !in s[..IndexOf(s, c)]
  {
    if s != [] && s[0] != c {
      IndexOfFirst(s[1..], c);
      assert s[..IndexOf(s, c)] == [s[0]] + s[1..][..IndexOf(s[1..], c)];
    }
  }

  predicate SchemeChar(c: char) {
    ('a' <= c <= 'z') || ('A' <= c <= 'Z') || ('0' <= c <= '9') || c == '+' || c == '-' || c == '.'
  }

  predicate SchemeName(s: string) {
    s == [] || (SchemeChar(s[0]) && SchemeName(s[1..]))
  }

  /** The URL without its `scheme:` prefix, when it has one: an ASCII letter, then scheme characters, then `:`. */
  function AfterScheme(url: string): string {
    var i := IndexOf(url, ':');
    if 0 < i < |url| && (('a' <= url[0] <= 'z') || ('A' <= url[0] <= 'Z')) && SchemeName(url[..i])
    then url[i + 1..] else url
  }

  function Min(a: nat, b: nat): nat {
    if a <= b then a else b
  }

  /** The path component: after the `//netloc` authority, before any `#fragment` or `?query`. */
  function UrlPath(url: string): string {
    var rest := AfterScheme(url);
    var afterNetloc :=
      if |rest| >= 2 && rest[..2] == "//" then
        var h := rest[2..];
        var end := Min(IndexOf(h, '/'), Min(IndexOf(h, '?'), IndexOf(h, '#')));
        h[end..]
      else rest;
    var noFragment := afterNetloc[..IndexOf(afterNetloc, '#')];
    noFragment[..IndexOf(noFragment, '?')]
  }

  /** The path holds neither the fragment nor the query. */
  lemma UrlPathShape(url: string)
    ensures '#' !in UrlPath(url) && '?' !in UrlPath(url)
  {
    var rest := AfterScheme(url);
    var afterNetloc :=
      if |rest| >= 2 && rest[..2] == "//" then
        var h := rest[2..];
        h[Min(IndexOf(h, '/'), Min(IndexOf(h, '?'), IndexOf(h, '#')))..]
      else rest;
    var noFragment := afterNetloc[..IndexOf(afterNetloc, '#')];
    IndexOfFirst(afterNetloc, '#');
    IndexOfFirst(noFragment, '?');
    var p := noFragment[..IndexOf(noFragment, '?')];
    assert UrlPath(url) == p;
    assert forall c | c in p :: c in noFragment;
  }

  /** `os.path.basename`: what follows the last `/`. */
  function Basename(path: string): string {
    if path == [] then []
    else if path[|path| - 1] == '/' then []
    else Basename(path[..|path| - 1]) + [path[|path| - 1]]
  }

  /** The base name is the longest suffix without a `/`: a suffix, `/`-free, and preceded by `/` when shorter. */
  lemma {:induction false} BasenameShape(path: string)
    ensures var r := Basename(path);
            && '/' !in r
            && |r| <= |path| && r == path[|path| - |r|..]
            && (|r| < |path| ==> path[|path| - |r| - 1] == '/')
  {
    if path != [] && path[|path| - 1] != '/' {
      var n := |path| - 1;
      var init, last := path[..n], path[n];
      BasenameShape(init);
      var r0 := Basename(init);
      var r := r0 + [last];
      assert Basename(path) == r;
      assert path[n - |r0|..] == init[n - |r0|..] + [last];
      assert '/' !in r;
      if |r| < |path| {
        assert path[|path| - |r| - 1] == init[|init| - |r0| - 1];
      }
    }
  }

  /** The name recorded for a file: the last segment of its URL's path. */
  function FileName(url: string): string {
    Basename(UrlPath(url))
  }

  /** A recorded file name holds no `/`, `?` or `#`. */
  lemma FileNameShape(url: string)
    ensures '/' !in FileName(url) && '?' !in FileName(url) && '#' !in FileName(url)
  {
    var p := UrlPath(url);
    UrlPathShape(url);
    BasenameShape(p);
    var b := Basename(p);
    assert forall c | c in b :: c in p;
  }

  // ---------------------------------------------------------------------
  // File ingestion (`create_files`)

  datatype Upload = Uploaded(id: string) | NoFile | UploadRaised

  /** One URL with what the outside world answers for it: did the fetch succeed, what did the upload return. */
  datatype Fetch = Fetch(url: string, fetched: bool, upload: Upload)

  predicate Ingests(x: Fetch) {
    x.fetched && x.upload.Uploaded?
  }

  /** The (name, id) pair recorded for an ingested URL. */
  function PairOf(x: Fetch): (string, string)
    requires Ingests(x)
  {
    (FileName(x.url), x.upload.id)
  }

  datatype Ingest = Ingest(pairs: seq<(string, string)>, effects: seq<Effect>, raised: bool)

  /** The loop over the URLs: one upload per URL (empty content when the fetch failed), stopping if one raises. */
  function IngestAll(fetches: seq<Fetch>): Ingest {
    if fetches == [] then Ingest([], [], false)
    else
      var g := IngestAll(fetches[..|fetches| - 1]);
      var x := fetches[|fetches| - 1];
      if g.raised then g
      else
        var effects := g.effects + [UploadRequested(x.url, x.fetched)];
        if x.upload.UploadRaised? then Ingest(g.pairs, effects, true)
        else if Ingests(x) then Ingest(g.pairs + [PairOf(x)], effects, false)
        else Ingest(g.pairs, effects, false)
  }

  /** The indices of the URLs that were fetched and uploaded, in order. */
  function Ingested(fetches: seq<Fetch>): (idx: seq<nat>)
    ensures forall k | 0 <= k < |idx| :: idx[k] < |fetches| && Ingests(fetches[idx[k]])
  {
    if fetches == [] then []
    else
      var n := |fetches| - 1;
      Ingested(fetches[..n]) + (if Ingests(fetches[n]) then [n] else [])
  }

  function Ids(pairs: seq<(string, string)>): (ids: seq<string>)
    ensures |ids| == |pairs| && forall k | 0 <= k < |pairs| :: ids[k] == pairs[k].1
  {
    if pairs == [] then [] else [pairs[0].1] + Ids(pairs[1..])
  }

  /** The ingested indices increase, and are exactly the URLs fetched and uploaded. */
  lemma {:induction false} IngestedIndices(fetches: seq<Fetch>)
    ensures forall a, b | 0 <= a < b < |Ingested(fetches)| :: Ingested(fetches)[a] < Ingested(fetches)[b]
    ensures forall j | 0 <= j < |fetches| :: Ingests(fetches[j]) <==> j in Ingested(fetches)
  {
    if fetches != [] {
      var n := |fetches| - 1;
      IngestedIndices(fetches[..n]);
      assert forall j | 0 <= j < n :: fetches[..n][j] == fetches[j];
    }
  }

  /**
   * Without an upload exception, the recorded pairs are those of the URLs
   * that were fetched and uploaded, in URL order, each named by the last
   * segment of its URL's path.
   */
  lemma {:induction false} IngestPairs(fetches: seq<Fetch>)
    ensures var g := IngestAll(fetches);
            var idx := Ingested(fetches);
            !g.raised ==> |g.pairs| == |idx| && forall k | 0 <= k < |idx| :: g.pairs[k] == PairOf(fetches[idx[k]])
  {
    if fetches != [] {
      var n := |fetches| - 1;
      var init, x := fetches[..n], fetches[n];
      IngestPairs(init);
      var g0, idx0 := IngestAll(init), Ingested(init);
      if !g0.raised && !x.upload.UploadRaised? {
        var tail := if Ingests(x) then [n] else [];
        var pairs := g0.pairs + (if Ingests(x) then [PairOf(x)] else []);
        assert IngestAll(fetches).pairs == pairs;
        assert Ingested(fetches) == idx0 + tail;
        forall k | 0 <= k < |idx0 + tail| ensures pairs[k] == PairOf(fetches[(idx0 + tail)[k]]) {
          if k < |idx0| {
            assert init[idx0[k]] == fetches[idx0[k]];
          }
        }
      }
    }
  }

  /** One upload is requested per URL, fetched or not, and the loop raises exactly when an upload does. */
  lemma {:induction false} IngestUploads(fetches: seq<Fetch>)
    ensures var g := IngestAll(fetches);
            g.raised <==> exists j :: 0 <= j < |fetches| && fetches[j].upload.UploadRaised?
    ensures var g := IngestAll(fetches);
            !g.raised ==> |g.effects| == |fetches| &&
                          forall j | 0 <= j < |fetches| :: g.effects[j] == UploadRequested(fetches[j].url, fetches[j].fetched)
  {
    if fetches != [] {
      var n := |fetches| - 1;
      var init, x := fetches[..n], fetches[n];
      IngestUploads(init);
      var g0 := IngestAll(init);
      assert forall j | 0 <= j < n :: init[j] == fetches[j];
      if g0.raised {
        var j :| 0 <= j < n && init[j].upload.UploadRaised?;
        assert fetches[j].upload.UploadRaised?;
      } else {
        assert IngestAll(fetches).effects == g0.effects + [UploadRequested(x.url, x.fetched)];
        assert IngestAll(fetches).raised == x.upload.UploadRaised?;
      }
    }
  }

  /** Once an upload raised, the later URLs are never reached. */
  lemma {:induction false} IngestAfterRaise(fetches: seq<Fetch>, i: nat)
    requires 0 < i <= |fetches| && IngestAll(fetches[..i]).raised
    ensures IngestAll(fetches) == IngestAll(fetches[..i])
  {
    if i < |fetches| {
      var n := |fetches| - 1;
      assert fetches[..n][..i] == fetches[..i];
      IngestAfterRaise(fetches[..n], i);
    } else {
      assert fetches[..i] == fetches;
    }
  }

  lemma {:induction false} IdsSnoc(pairs: seq<(string, string)>, p: (string, string))
    ensures Ids(pairs + [p]) == Ids(pairs) + [p.1]
  {
    if pairs != [] {
      assert (pairs + [p])[1..] == pairs[1..] + [p];
      IdsSnoc(pairs[1..], p);
    }
  }

  /** `create_files`: upload each URL, record the uploaded ones for the user, answer their ids. */
  method CreateFiles(store: KV.Store, u: string, fetches: seq<Fetch>)
    returns (r: Outcome<seq<string>>, effects: seq<Effect>)
    requires store.Valid()
    modifies store
    ensures store.Valid()
    ensures effects == IngestAll(fetches).effects
    ensures IngestAll(fetches).raised ==> r == Raised(UploadError) && store.rows == old(store.rows)
    ensures !IngestAll(fetches).raised ==> r == Returned(Ids(IngestAll(fetches).pairs))
    ensures !IngestAll(fetches).raised && u != "" && IngestAll(fetches).pairs != [] ==>
              store.rows == KV.FilesAdded(old(store.rows), u, IngestAll(fetches).pairs)
    ensures !IngestAll(fetches).raised && (u == "" || IngestAll(fetches).pairs == []) ==>
              store.rows == old(store.rows)
    ensures IngestAll(fetches).raised || u == "" || IngestAll(fetches).pairs == [] ==>
              store.totalChanges == old(store.totalChanges)
    ensures !IngestAll(fetches).raised && u != "" && IngestAll(fetches).pairs != [] ==>
              store.totalChanges == old(store.totalChanges) + KV.FilesAddedChanges(old(store.rows), u, IngestAll(fetches).pairs)
  {
    var kvFiles: seq<(string, string)> := [];
    effects := [];
    var i := 0;
    while i < |fetches|
      invariant 0 <= i <= |fetches|
      invariant IngestAll(fetches[..i]) == Ingest(kvFiles, effects, false)
      invariant store.rows == old(store.rows) && store.totalChanges == old(store.totalChanges)
    {
      var url := fetches[i].url;
      var fileRead := fetches[i].fetched;
      assert fetches[..i + 1][..i] == fetches[..i];
      effects := effects + [UploadRequested(url, fileRead)];
      var assistantFile := fetches[i].upload;
      if assistantFile.UploadRaised? {
        IngestAfterRaise(fetches, i + 1);
        return Raised(UploadError), effects;
      }
      if fileRead && assistantFile.Uploaded? {
        kvFiles := kvFiles + [(FileName(url), assistantFile.id)];
      }
      i := i + 1;
    }
    assert fetches[..|fetches|] == fetches;
    var _ := store.CreateFiles(u, kvFiles);
    ghost var written, changes := store.rows, store.totalChanges;
    var fileIds: seq<string> := [];
    var k := 0;
    while k < |kvFiles|
      invariant 0 <= k <= |kvFiles|
      invariant store.rows == written && store.totalChanges == changes
      invariant fileIds == Ids(kvFiles[..k])
    {
      IdsSnoc(kvFiles[..k], kvFiles[k]);
      assert kvFiles[..k + 1] == kvFiles[..k] + [kvFiles[k]];
      fileIds := fileIds + [kvFiles[k].1];
      k := k + 1;
    }
    assert kvFiles[..|kvFiles|] == kvFiles;
    r := Returned(fileIds);
  }

  // ---------------------------------------------------------------------
  // Thread and assistant creation

  /**
   * The remote calls `create_thread` makes: a retrieve of the stored item
   * when there is one, then a create unless that retrieve answered a thread.
   */
  function ThreadEffects(stored: Option<KV.Item>, retrieved: Option<string>): seq<Effect> {
    (if stored.Some? then [RetrievedThread(stored.value)] else [])
    + (if stored.Some? && retrieved.Some? then [] else [CreatedThread])
  }

  /**
   * `create_thread`: keep the stored thread when the remote retrieve of the
   * stored item answers one (`retrieved`), otherwise create a new one
   * (`created`); either way the thread key is upserted.
   */
  method CreateThread(store: KV.Store, u: string, retrieved: Option<string>, created: string)
    returns (threadId: string, effects: seq<Effect>)
    requires store.Valid()
    modifies store
    ensures store.Valid()
    ensures threadId == if old(store.GetThread(u)).Some? && retrieved.Some? then retrieved.value else created
    ensures effects == ThreadEffects(old(store.GetThread(u)), retrieved)
    ensures store.rows == KV.Upserted(old(store.rows), u, KV.ThreadKey, threadId)
    ensures store.GetThread(u) == Some(KV.Item(u, KV.ThreadKey, threadId))
    ensures store.totalChanges == old(store.totalChanges) + KV.UpsertChanges(old(store.rows), u, KV.ThreadKey, threadId)
  {
    var stored := store.GetThread(u);
    var lookup: seq<Effect> := [];
    if stored.Some? {
      lookup := [RetrievedThread(stored.value)];
    }
    if stored.Some? && retrieved.Some? {
      threadId := retrieved.value;
      effects := lookup + [];
    } else {
      threadId := created;
      effects := lookup + [CreatedThread];
    }
    var _ := store.CreateThread(u, threadId);
  }

  /** The tool schema declared to a new assistant, as `json.dumps(tools_list)` writes it. */
  const ToolsJson: string :=
    "[{\"type\": \"code_interpreter\"}, {\"type\": \"function\", \"function\": {\"name\": \"get_stock_price\", "
    + "\"description\": \"Retrieve the latest closing price of a stock using its ticker symbol.\", "
    + "\"parameters\": {\"type\": \"object\", \"properties\": {\"symbol\": {\"type\": \"string\", "
    + "\"description\": \"The ticker symbol of the stock\"}}, \"required\": [\"symbol\"]}}}, "
    + "{\"type\": \"function\", \"function\": {\"name\": \"send_email\", \"description\": \"Sends an email to a recipient(s).\", "
    + "\"parameters\": {\"type\": \"object\", \"properties\": {\"to\": {\"type\": \"string\", "
    + "\"description\": \"The email(s) the email should be sent to.\"}, \"content\": {\"type\": \"string\", "
    + "\"description\": \"The content of the email.\"}}, \"required\": [\"to\", \"content\"]}}}]"

  /**
   * The `except` branch of `create_assistant`: create the remote assistant
   * (`createdId`), record it with a fresh uuid (`uid`), then create or reuse
   * the thread, and answer the assistant id, the thread id and the tool
   * schema.
   */
  method RecordNewAssistant(store: KV.Store, u: string, name: string, instructions: string, fileIds: seq<string>,
                            model: string, createdId: string, uid: string,
                            retrievedThread: Option<string>, createdThread: string)
    returns (answer: (string, string, string), effects: seq<Effect>)
    requires store.Valid()
    modifies store
    ensures store.Valid()
    ensures answer == (createdId,
                       if old(store.GetThread(u)).Some? && retrievedThread.Some? then retrievedThread.value else createdThread,
                       ToolsJson)
    ensures effects == [CreatedAssistant(name, instructions, ToolsJson, model, fileIds)]
                       + ThreadEffects(old(store.GetThread(u)), retrievedThread)
    ensures store.GetThread(u) == Some(KV.Item(u, KV.ThreadKey, answer.1))
    ensures store.rows == KV.Upserted(KV.AssistantWritten(old(store.rows), u, uid, name, instructions, ToolsJson, createdId),
                                      u, KV.ThreadKey, answer.1)
    ensures store.totalChanges ==
              old(store.totalChanges)
              + KV.AssistantChanges(old(store.rows), u, uid, name, instructions, ToolsJson, createdId)
              + KV.UpsertChanges(KV.AssistantWritten(old(store.rows), u, uid, name, instructions, ToolsJson, createdId),
                                 u, KV.ThreadKey, answer.1)
  {
    ghost var oldThread := store.GetThread(u);
    KV.AssistantKeepsThread(store.rows, u, uid, name, instructions, ToolsJson, createdId);
    var _ := store.CreateAssistant(u, name, instructions, ToolsJson, createdId, uid);
    assert store.GetThread(u) == oldThread;
    var threadId, threadEffects := CreateThread(store, u, retrievedThread, createdThread);
    effects := [CreatedAssistant(name, instructions, ToolsJson, model, fileIds)] + threadEffects;
    answer := (createdId, threadId, ToolsJson);
  }

  /**
   * `create_assistant`. The stored assistant item, when there is one, is
   * retrieved remotely; when that answers an assistant the function falls off
   * its end and answers None, writing nothing. Otherwise the new assistant is
   * recorded as above, after the failed lookup.
   */
  method CreateAssistant(store: KV.Store, u: string, name: string, instructions: string, fileIds: seq<string>,
                         model: string, retrievedAssistant: Option<string>, createdId: string, uid: string,
                         retrievedThread: Option<string>, createdThread: string)
    returns (r: Option<(string, string, string)>, effects: seq<Effect>)
    requires store.Valid()
    modifies store
    ensures store.Valid()
    ensures old(store.GetAssistant(u)).Some? && retrievedAssistant.Some? ==>
              && r == None && effects == [RetrievedAssistant(old(store.GetAssistant(u)).value)]
              && store.rows == old(store.rows) && store.totalChanges == old(store.totalChanges)
    ensures !(old(store.GetAssistant(u)).Some? && retrievedAssistant.Some?) ==>
              && r == Some((createdId,
                            if old(store.GetThread(u)).Some? && retrievedThread.Some? then retrievedThread.value else createdThread,
                            ToolsJson))
              && effects == (if old(store.GetAssistant(u)).Some? then [RetrievedAssistant(old(store.GetAssistant(u)).value)] else [])
                            + [CreatedAssistant(name, instructions, ToolsJson, model, fileIds)]
                            + ThreadEffects(old(store.GetThread(u)), retrievedThread)
              && store.GetThread(u) == Some(KV.Item(u, KV.ThreadKey, r.value.1))
              && store.rows == KV.Upserted(KV.AssistantWritten(old(store.rows), u, uid, name, instructions, ToolsJson, createdId),
                                           u, KV.ThreadKey, r.value.1)
              && store.totalChanges ==
                   old(store.totalChanges)
                   + KV.AssistantChanges(old(store.rows), u, uid, name, instructions, ToolsJson, createdId)
                   + KV.UpsertChanges(KV.AssistantWritten(old(store.rows), u, uid, name, instructions, ToolsJson, createdId),
                                      u, KV.ThreadKey, r.value.1)
  {
    var stored := store.GetAssistant(u);
    var lookup: seq<Effect> := [];
    if stored.Some? {
      lookup := [RetrievedAssistant(stored.value)];
      if retrievedAssistant.Some? {
        return None, lookup;
      }
    }
    var answer, created := RecordNewAssistant(store, u, name, instructions, fileIds, model, createdId, uid,
                                              retrievedThread, createdThread);
    Wrappers.AppendAssoc(lookup, [CreatedAssistant(name, instructions, ToolsJson, model, fileIds)],
                         ThreadEffects(old(store.GetThread(u)), retrievedThread));
    effects := lookup + created;
    r := Some(answer);
  }

  // ---------------------------------------------------------------------
  // Deletion (`delete_assistant`)

  const UserNotFound: string := "User not found"

  /**
   * The remote deletions requested for the user's entries, in order. An
   * assistant or thread entry names its id directly; a file entry names it in
   * its JSON `id` field, and one whose record cannot be read ends the loop.
   */
  function DeletionRequests(entries: seq<KV.Item>): seq<Effect> {
    if entries == [] then []
    else
      var e := entries[0];
      if e.key == KV.AssistantKey then [DeleteAssistantRequested(e.value)] + DeletionRequests(entries[1..])
      else if e.key == KV.ThreadKey then [DeleteThreadRequested(e.value)] + DeletionRequests(entries[1..])
      else if e.key == KV.FileKey then
        match FileRecord.FileId(e.value)
        case None => []
        case Some(id) => [DeleteFileRequested(id)] + DeletionRequests(entries[1..])
      else DeletionRequests(entries[1..])
  }

  /** The deletion a single entry asks for, when its key is one of the three. */
  function RequestFor(e: KV.Item): Option<Effect> {
    if e.key == KV.AssistantKey then Some(DeleteAssistantRequested(e.value))
    else if e.key == KV.ThreadKey then Some(DeleteThreadRequested(e.value))
    else if e.key == KV.FileKey && FileRecord.FileId(e.value).Some? then Some(DeleteFileRequested(FileRecord.FileId(e.value).value))
    else None
  }

  /** The requests of the entries taken one by one, in entry order. */
  function RequestsOf(entries: seq<KV.Item>): seq<Effect> {
    if entries == [] then []
    else (match RequestFor(entries[0]) case Some(x) => [x] case None => []) + RequestsOf(entries[1..])
  }

  /** How many entries come before the first file entry whose record cannot be read. */
  function ReadablePrefix(entries: seq<KV.Item>): (n: nat)
    ensures n <= |entries|
    ensures forall k | 0 <= k < n && entries[k].key == KV.FileKey :: FileRecord.FileId(entries[k].value).Some?
    ensures n < |entries| ==> entries[n].key == KV.FileKey && FileRecord.FileId(entries[n].value).None?
  {
    if entries == [] then 0
    else if entries[0].key == KV.FileKey && FileRecord.FileId(entries[0].value).None? then 0
    else 1 + ReadablePrefix(entries[1..])
  }

  /**
   * The loop asks, in entry order, for exactly one request per assistant,
   * thread and file entry up to the first unreadable file record, and for
   * nothing after it.
   */
  lemma {:induction false} DeletionInOrder(entries: seq<KV.Item>)
    ensures DeletionRequests(entries) == RequestsOf(entries[..ReadablePrefix(entries)])
  {
    if entries != [] {
      var n := ReadablePrefix(entries);
      if n == 0 {
        assert entries[..0] == [];
      } else {
        DeletionInOrder(entries[1..]);
        assert entries[..n][1..] == entries[1..][..n - 1];
      }
    }
  }

  /**
   * Every request is for an assistant, thread or file entry, other entries
   * ask for nothing, and there are no more requests than entries.
   */
  lemma {:induction false} DeletionOnlyRemote(entries: seq<KV.Item>)
    ensures |DeletionRequests(entries)| <= |entries|
    ensures forall x | x in DeletionRequests(entries) :: exists e | e in entries :: RequestFor(e) == Some(x)
  {
    if entries != [] {
      DeletionOnlyRemote(entries[1..]);
      forall x | x in DeletionRequests(entries) ensures exists e | e in entries :: RequestFor(e) == Some(x) {
        if x !in DeletionRequests(entries[1..]) {
          assert RequestFor(entries[0]) == Some(x);
        } else {
          var e :| e in entries[1..] && RequestFor(e) == Some(x);
          assert e in entries;
        }
      }
    }
  }

  /**
   * When every file entry can be read, every assistant, thread and file
   * entry gets exactly its request, in entry order; the file request uses
   * the id the record holds.
   */
  lemma {:induction false} DeletionCoversAll(entries: seq<KV.Item>)
    requires forall k | 0 <= k < |entries| && entries[k].key == KV.FileKey :: FileRecord.FileId(entries[k].value).Some?
    ensures DeletionRequests(entries) == RequestsOf(entries)
    ensures forall k | 0 <= k < |entries| && RequestFor(entries[k]).Some? ::
              RequestFor(entries[k]).value in DeletionRequests(entries)
  {
    DeletionInOrder(entries);
    var n := ReadablePrefix(entries);
    assert n == |entries|;
    assert entries[..n] == entries;
    RequestsOfMembers(entries);
  }

  /** Every entry with a request finds it among the requests of the entries. */
  lemma {:induction false} RequestsOfMembers(entries: seq<KV.Item>)
    ensures forall k | 0 <= k < |entries| && RequestFor(entries[k]).Some? :: RequestFor(entries[k]).value in RequestsOf(entries)
  {
    if entries != [] {
      RequestsOfMembers(entries[1..]);
      assert forall k | 1 <= k < |entries| :: entries[1..][k - 1] == entries[k];
    }
  }

  /** A file entry written by create_files asks for the deletion of the very id uploaded. */
  lemma FileEntryDeletion(u: string, name: string, id: string)
    ensures RequestFor(KV.FileItem(u, (name, id))) == Some(DeleteFileRequested(id))
  {
    FileRecord.DecodeEncode(name, id);
  }

  /** A file entry whose record cannot be read stops the loop: no later entry is asked for. */
  lemma {:induction false} DeletionStopsAtBadRecord(entries: seq<KV.Item>, k: nat)
    requires k < |entries| && entries[k].key == KV.FileKey && FileRecord.FileId(entries[k].value).None?
    ensures DeletionRequests(entries) == DeletionRequests(entries[..k])
  {
    if k == 0 {
      assert entries[..0] == [];
    } else {
      assert entries[..k][1..] == entries[1..][..k - 1];
      DeletionStopsAtBadRecord(entries[1..], k - 1);
    }
  }

  /**
   * `delete_assistant`, given the user's entries. "User not found" for no
   * entries; otherwise the remote deletions and the removal of the image
   * folder are requested and None is answered, whatever they do.
   */
  method DeleteAssistant(store: KV.Store, u: string, entries: Option<seq<KV.Item>>)
    returns (r: Option<string>, effects: seq<Effect>)
    ensures entries.None? || entries == Some([]) ==> r == Some(UserNotFound) && effects == []
    ensures entries.Some? && entries.value != [] ==>
              && r == None
              && effects == DeletionRequests(entries.value)
                            + (match UserFolders(store, u)
                               case Some(f) => [RemoveFolderRequested(f.disk)]
                               case None => [])
  {
    if entries.None? || entries.value == [] {
      return Some(UserNotFound), [];
    }
    var settings := entries.value;
    effects := [];
    var i := 0;
    while i < |settings|
      invariant 0 <= i <= |settings|
      invariant DeletionRequests(settings) == effects + DeletionRequests(settings[i..])
    {
      var setting := settings[i];
      assert settings[i..][1..] == settings[i + 1..];
      if setting.key == KV.AssistantKey {
        effects := effects + [DeleteAssistantRequested(setting.value)];
      } else if setting.key == KV.ThreadKey {
        effects := effects + [DeleteThreadRequested(setting.value)];
      } else if setting.key == KV.FileKey {
        var jsonData := FileRecord.FileId(setting.value);
        if jsonData.None? {
          break;
        }
        effects := effects + [DeleteFileRequested(jsonData.value)];
      }
      i := i + 1;
    }
    var folders := UserFolders(store, u);
    if folders.Some? {
      effects := effects + [RemoveFolderRequested(folders.value.disk)];
    }
    r := None;
  }
}
