/** The conversion, in `run_model` of client/app.py, of the chat history the
    HTTP body carries (a list of dictionaries) into LangChain messages. */
module History {
  import opened Wrappers
  import opened Messages

  /** One history entry as the backend receives it, e.g.
      `{"role": "user", "content": "hi"}`. */
  type Entry = map<string, string>

  /** Reading `msg[key]` from an entry that lacks `key` raises KeyError. */
  datatype ConvertError = KeyError(key: string)

  /** The converted messages, or the KeyError that stopped the conversion. */
  type Conversion = Result<seq<Message>, ConvertError>

  /** The entry's role names one of the two kinds the loop keeps. */
  predicate Kept(e: Entry) {
    "role" in e && (e["role"] == "user" || e["role"] == "assistant")
  }

  /** The loop can read everything it looks at in this entry. */
  predicate Readable(e: Entry) {
    "role" in e && (Kept(e) ==> "content" in e)
  }

  /** The message a kept entry becomes. */
  function Translate(e: Entry): Message
    requires Kept(e) && "content" in e
  {
    if e["role"] == "user" then HumanMessage(e["content"]) else AIMessage(e["content"], Some([]))
  }

  /** One iteration of the loop: a missing key raises, a kept entry adds one
      message, any other role adds nothing. */
  function ConvertEntry(e: Entry): Result<seq<Message>, ConvertError> {
    if "role" !in e then Failure(KeyError("role"))
    else if !Kept(e) then Success([])
    else if "content" !in e then Failure(KeyError("content"))
    else Success([Translate(e)])
  }

  /** The loop over the whole history, defined as the loop over all but the
      last entry followed by the last entry. */
  function ConvertHistory(entries: seq<Entry>): (r: Conversion)
    decreases |entries|
  {
    if entries == [] then Success([])
    else
      var prior := ConvertHistory(entries[..|entries| - 1]);
      if prior.Failure? then prior
      else
        match ConvertEntry(entries[|entries| - 1])
        case Failure(err) => Failure(err)
        case Success(more) => Success(prior.value + more)
  }

  /** `ps` lists, in increasing order, exactly the positions of the kept entries. */
  ghost predicate EnumeratesKept(ps: seq<nat>, entries: seq<Entry>) {
    && (forall j :: 0 <= j < |ps| ==> ps[j] < |entries| && Kept(entries[ps[j]]))
    && (forall j, j' :: 0 <= j < j' < |ps| ==> ps[j] < ps[j'])
    && (forall i :: 0 <= i < |entries| && Kept(entries[i]) ==> i in ps)
  }

  /** The positions of the kept entries, in order. */
  function KeptPositions(entries: seq<Entry>): (ps: seq<nat>)
    ensures EnumeratesKept(ps, entries)
    ensures |ps| <= |entries|
    decreases |entries|
  {
    if entries == [] then []
    else
      var last := |entries| - 1;
      var prior := KeptPositions(entries[..last]);
      assert forall i :: 0 <= i < last ==> entries[..last][i] == entries[i];
      if Kept(entries[last]) then prior + [last] else prior
  }

  /** The loop succeeds exactly when every entry has a role and every kept
      entry has content. */
  lemma {:induction false} ConvertSucceedsIff(entries: seq<Entry>)
    ensures ConvertHistory(entries).Success? <==> forall i :: 0 <= i < |entries| ==> Readable(entries[i])
    decreases |entries|
  {
    if entries != [] {
      var last := |entries| - 1;
      var front := entries[..last];
      assert forall i :: 0 <= i < last ==> front[i] == entries[i];
      ConvertSucceedsIff(front);
      assert ConvertEntry(entries[last]).Success? <==> Readable(entries[last]);
    }
  }

  /** A successful loop yields, in order, the translation of each kept entry
      and nothing for the others: a filter-map of the history. In particular
      at most one message per entry comes out. */
  lemma {:induction false} ConvertIsFilterMap(entries: seq<Entry>)
    requires ConvertHistory(entries).Success?
    ensures var ps := KeptPositions(entries);
            && |ConvertHistory(entries).value| == |ps| <= |entries|
            && forall j :: 0 <= j < |ps| ==>
                 "content" in entries[ps[j]] && ConvertHistory(entries).value[j] == Translate(entries[ps[j]])
    decreases |entries|
  {
    if entries != [] {
      var last := |entries| - 1;
      var front := entries[..last];
      assert forall i :: 0 <= i < last ==> front[i] == entries[i];
      var prior := ConvertHistory(front);
      assert prior.Success?;
      ConvertIsFilterMap(front);
      var e := entries[last];
      var ps := KeptPositions(entries);
      var out := ConvertHistory(entries).value;
      if Kept(e) {
        assert ConvertEntry(e) == Success([Translate(e)]);
        assert out == prior.value + [Translate(e)];
        assert ps == KeptPositions(front) + [last];
      } else {
        assert ConvertEntry(e) == Success([]);
        assert out == prior.value;
        assert ps == KeptPositions(front);
      }
    }
  }

  /** In a successful conversion every `user` entry becomes a human message
      and every `assistant` entry an AI message with no tool calls, each with
      the entry's content, in the order of the entries. */
  lemma {:induction false} KeptRolesTranslate(entries: seq<Entry>)
    requires ConvertHistory(entries).Success?
    ensures var ps := KeptPositions(entries);
            var out := ConvertHistory(entries).value;
            && |out| == |ps|
            && forall j :: 0 <= j < |ps| ==>
                 && "content" in entries[ps[j]]
                 && (entries[ps[j]]["role"] == "user" ==> out[j] == HumanMessage(entries[ps[j]]["content"]))
                 && (entries[ps[j]]["role"] == "assistant" ==> out[j] == AIMessage(entries[ps[j]]["content"], Some([])))
  {
    ConvertIsFilterMap(entries);
  }

  /** The first entry the loop cannot read decides the error: KeyError on
      "role" when it has no role, on "content" otherwise. */
  lemma {:induction false} ConvertFailsAtFirstUnreadable(entries: seq<Entry>, k: nat)
    requires k < |entries| && !Readable(entries[k])
    requires forall i :: 0 <= i < k ==> Readable(entries[i])
    ensures ConvertHistory(entries) == Failure(KeyError(if "role" in entries[k] then "content" else "role"))
    decreases |entries|
  {
    var last := |entries| - 1;
    var front := entries[..last];
    assert forall i :: 0 <= i < last ==> front[i] == entries[i];
    if k < last {
      ConvertFailsAtFirstUnreadable(front, k);
    } else {
      ConvertSucceedsIff(front);
      assert ConvertHistory(entries) == ConvertEntry(entries[last]);
    }
  }

  /** The loop as the source writes it: walk the entries, appending a human
      message for "user", an AI message for "assistant", and skipping the rest. */
  method ConvertMessages(entries: seq<Entry>) returns (r: Conversion)
    ensures r == ConvertHistory(entries)
  {
    var converted: seq<Message> := [];
    var i := 0;
    while i < |entries|
      invariant 0 <= i <= |entries|
      invariant ConvertHistory(entries[..i]) == Success(converted)
    {
      var msg := entries[i];
      ConvertOneMore(entries, i);
      if "role" !in msg {
        r := Failure(KeyError("role"));
        StopsAtKeyError(entries, i + 1);
        return;
      }
      if msg["role"] == "user" || msg["role"] == "assistant" {
        if "content" !in msg {
          r := Failure(KeyError("content"));
          StopsAtKeyError(entries, i + 1);
          return;
        }
        if msg["role"] == "user" {
          converted := converted + [HumanMessage(msg["content"])];
        } else {
          converted := converted + [AIMessage(msg["content"], Some([]))];
        }
        assert ConvertEntry(msg) == Success([Translate(msg)]);
        assert converted == ConvertHistory(entries[..i]).value + [Translate(msg)];
      } else {
        assert ConvertEntry(msg) == Success([]);
        assert converted == ConvertHistory(entries[..i]).value + [];
      }
      i := i + 1;
    }
    assert entries[..i] == entries;
    r := Success(converted);
  }

  /** Converting one more entry after a readable prefix. */
  lemma ConvertOneMore(entries: seq<Entry>, i: nat)
    requires i < |entries| && ConvertHistory(entries[..i]).Success?
    ensures ConvertHistory(entries[..i + 1]) ==
            match ConvertEntry(entries[i])
            case Failure(err) => Failure(err)
            case Success(more) => Success(ConvertHistory(entries[..i]).value + more)
  {
    var upTo := entries[..i + 1];
    assert upTo[..|upTo| - 1] == entries[..i] && upTo[|upTo| - 1] == entries[i];
  }

  /** A KeyError raised on a prefix of the history ends the whole loop with it. */
  lemma {:induction false} StopsAtKeyError(entries: seq<Entry>, n: nat)
    requires n <= |entries|
    requires ConvertHistory(entries[..n]).Failure?
    ensures ConvertHistory(entries) == ConvertHistory(entries[..n])
    decreases |entries| - n
  {
    if n == |entries| {
      assert entries[..n] == entries;
    } else {
      assert entries[..n + 1][..n] == entries[..n];
      StopsAtKeyError(entries, n + 1);
    }
  }
}
