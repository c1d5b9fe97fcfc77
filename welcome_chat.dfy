/**
 * The chat history of a `WelcomeSession` (services/welcome_service.py) and the
 * recent-history text `_get_chat_context` hands to the language model.
 */
module WelcomeChat {
  import opened Wrappers
  import opened Text

  /** One `chat_history` entry; the timestamp is whatever the clock gave. */
  datatype ChatMessage = ChatMessage(role: string, content: string, timestamp: string, audioUrl: Option<string>)

  /** The instruction every spoken reply ends with, scrubbed out of the context. */
  const Marker: string := "Press Enter to record your response."
  const NoHistory: string := "No previous conversation"
  /** How many messages of history the context keeps. */
  const Window: nat := 6

  /** `chat_history[-6:] if len(chat_history) > 6 else chat_history`. */
  function RecentMessages(h: seq<ChatMessage>): seq<ChatMessage>
  {
    if |h| > Window then h[|h| - Window..] else h
  }

  /** One line of the context: the role, then the content with every marker removed and stripped. */
  function Render(m: ChatMessage): string
  {
    m.role + ": " + Scrub(m.content) + "\n"
  }

  /** A message's content with every marker removed, then stripped. */
  function Scrub(content: string): string
  {
    Strip(RemoveAll(content, Marker))
  }

  /** The lines `line` gives for each of `ms`, in order, concatenated. */
  function Join(ms: seq<ChatMessage>, line: ChatMessage -> string): string
  {
    if ms == [] then "" else Join(ms[..|ms| - 1], line) + line(ms[|ms| - 1])
  }

  /** The lines of `ms`, in order. */
  function RenderAll(ms: seq<ChatMessage>): string
  {
    Join(ms, Render)
  }

  /** `_get_chat_context()` on a history. */
  function ChatContext(h: seq<ChatMessage>): string
  {
    if h == [] then NoHistory else RenderAll(RecentMessages(h))
  }

  /** The window is the last min(6, n) messages, in their original order. */
  lemma RecentMessagesWindow(h: seq<ChatMessage>)
    ensures var r := RecentMessages(h);
      |r| == (if |h| < Window then |h| else Window) && r == h[|h| - |r|..]
  {
  }

  /** Joining a concatenation joins each part in turn. */
  lemma {:induction false} JoinAppend(a: seq<ChatMessage>, b: seq<ChatMessage>, line: ChatMessage -> string)
    ensures Join(a + b, line) == Join(a, line) + Join(b, line)
    decreases |b|
  {
    if b == [] {
      assert a + b == a;
    } else {
      var b0 := b[..|b| - 1];
      var ab := a + b;
      assert ab[..|ab| - 1] == a + b0;
      JoinAppend(a, b0, line);
    }
  }

  /** Rendering one more message of a prefix appends that message's line. */
  lemma RenderAllExtend(ms: seq<ChatMessage>, i: nat)
    requires i < |ms|
    ensures RenderAll(ms[..i + 1]) == RenderAll(ms[..i]) + Render(ms[i])
  {
    assert ms[..i + 1][..i] == ms[..i];
  }

  /** Rendering a concatenation renders each part in turn. */
  lemma RenderAllAppend(a: seq<ChatMessage>, b: seq<ChatMessage>)
    ensures RenderAll(a + b) == RenderAll(a) + RenderAll(b)
  {
    JoinAppend(a, b, Render);
  }

  /** Every rendered line ends in a newline, so a non-empty history never reads as "No previous conversation". */
  lemma ChatContextEmptyIff(h: seq<ChatMessage>)
    ensures ChatContext(h) == NoHistory <==> h == []
  {
    if h != [] {
      var ms := RecentMessages(h);
      var c := RenderAll(ms);
      assert c == Join(ms[..|ms| - 1], Render) + Render(ms[|ms| - 1]);
      assert c[|c| - 1] == '\n';
      assert NoHistory[|NoHistory| - 1] == 'n';
    }
  }

  /** Only the last six messages matter: anything before them leaves the context unchanged. */
  lemma ContextIgnoresOlder(older: seq<ChatMessage>, h: seq<ChatMessage>)
    requires |h| >= Window
    ensures ChatContext(older + h) == ChatContext(h)
  {
    var oh := older + h;
    assert RecentMessages(oh) == RecentMessages(h) by {
      assert oh[|oh| - Window..] == h[|h| - Window..];
    }
  }

  /** A short history is rendered whole. */
  lemma ContextOfShortHistory(h: seq<ChatMessage>)
    requires 0 < |h| <= Window
    ensures ChatContext(h) == RenderAll(h)
  {
  }

  /** A message without the marker is rendered with its content merely stripped. */
  lemma RenderWithoutMarker(m: ChatMessage)
    requires !Contains(m.content, Marker)
    ensures Render(m) == m.role + ": " + Strip(m.content) + "\n"
  {
    RemoveAllAbsent(m.content, Marker);
  }

  /** `f"/audio/{audio_path.split('/')[-1]}"`: the URL under which a generated audio file is served. */
  function AudioUrl(path: string): (r: string)
    ensures StartsWith(r, "/audio/")
    ensures '/' !in r[7..]
    ensures EndsWith(path, r[7..])
  {
    var name := AfterLast(path, '/');
    assert ("/audio/" + name)[7..] == name;
    "/audio/" + name
  }

  /** The served name is the path's last segment: what follows its final '/', or the whole of a path without one. */
  lemma AudioUrlLastSegment(dir: string, name: string)
    requires '/' !in name
    ensures AudioUrl(dir + "/" + name) == "/audio/" + name
    ensures AudioUrl(name) == "/audio/" + name
  {
    AfterLastAfterSep(dir, '/', name);
    AfterLastFree(name, '/');
  }
}
