/** The conversation-node data model: message types, messages, the node with its tags,
    transcript, links and version snapshots, and the dict round-trip of both records.
    The current time and fresh uuids are readings the caller supplies as strings. */
module Models {
  import opened Results
  import opened Records
  import opened Lists

  /** Who spoke a message; stored as its value "user" or "ai". */
  datatype MessageType = User | AI

  function TypeValue(t: MessageType): string {
    match t
    case User => "user"
    case AI => "ai"
  }

  /** `MessageType(v)`: the type whose value is `v`, if there is one. */
  function TypeOfValue(v: string): (r: Option<MessageType>)
    ensures forall t :: r == Some(t) <==> v == TypeValue(t)
  {
    if v == "user" then Some(User)
    else if v == "ai" then Some(AI)
    else None
  }

  /** One turn of a conversation. */
  datatype Message = Message(typ: MessageType, text: string, timestamp: string)

  /** `Message.to_dict`: a record of exactly the keys "type", "text" and "timestamp",
      which `Message.from_dict` reads back to the same message. */
  function MessageToDict(m: Message): (d: Value)
    ensures d.Obj? && d.fields.Keys == {"type", "text", "timestamp"}
    ensures MessageFromDict(d) == Ok(m)
  {
    Obj(map["type" := Str(TypeValue(m.typ)), "text" := Str(m.text),
             "timestamp" := Str(m.timestamp)])
  }

  /** `Message.from_dict`: reads "type", then "text", then "timestamp"; the first
      failing lookup decides the error. */
  function MessageFromDict(d: Value): (r: Result<Message, DecodeError>)
    ensures !d.Obj? ==> r == Err(NotARecord)
    ensures d.Obj? && "type" !in d.fields ==> r == Err(MissingKey("type"))
    ensures (d.Obj? && {"type", "text", "timestamp"} <= d.fields.Keys
             && d.fields["type"].Str? && TypeOfValue(d.fields["type"].s).Some?
             && d.fields["text"].Str? && d.fields["timestamp"].Str?) ==> r.Ok?
    ensures r.Ok? ==> d.Obj? && d.fields.Keys >= {"type", "text", "timestamp"}
    ensures r.Ok? ==> d.fields["type"] == Str(TypeValue(r.value.typ))
                      && d.fields["text"] == Str(r.value.text)
                      && d.fields["timestamp"] == Str(r.value.timestamp)
  {
    var t :- Field(d, "type");
    var typ :- if t.Str? && TypeOfValue(t.s).Some? then Ok(TypeOfValue(t.s).value)
               else Err(BadMessageType(t));
    var text :- StrField(d, "text");
    var timestamp :- StrField(d, "timestamp");
    Ok(Message(typ, text, timestamp))
  }

  /** Reading a record and writing the message back gives the record restricted to the
      three keys a message has. */
  lemma MessageToDictOfFromDict(d: Value)
    requires MessageFromDict(d).Ok?
    ensures MessageToDict(MessageFromDict(d).value) ==
              Obj(map k | k in d.fields && k in {"type", "text", "timestamp"} :: d.fields[k])
  {
    var m := MessageFromDict(d).value;
    var restricted := map k | k in d.fields && k in {"type", "text", "timestamp"} :: d.fields[k];
    assert restricted.Keys == {"type", "text", "timestamp"};
    assert MessageToDict(m).fields == restricted;
  }

  /** `[msg.to_dict() for msg in messages]`. */
  function MessagesToDicts(ms: seq<Message>): seq<Value> {
    seq(|ms|, i requires 0 <= i < |ms| => MessageToDict(ms[i]))
  }

  /** `[Message.from_dict(d) for d in ds]`, stopping at the first record that fails. */
  function MessagesFromDicts(ds: seq<Value>): Result<seq<Message>, DecodeError> {
    if ds == [] then Ok([])
    else
      var m :- MessageFromDict(ds[0]);
      var rest :- MessagesFromDicts(ds[1..]);
      Ok([m] + rest)
  }

  /** A list of records reads successfully exactly when every record does, giving the
      message of each record in the same place. */
  lemma {:induction false} MessagesFromDictsEach(ds: seq<Value>)
    ensures MessagesFromDicts(ds).Ok? <==> forall i :: 0 <= i < |ds| ==> MessageFromDict(ds[i]).Ok?
    ensures MessagesFromDicts(ds).Ok? ==>
      |MessagesFromDicts(ds).value| == |ds| &&
      forall i :: 0 <= i < |ds| ==> Ok(MessagesFromDicts(ds).value[i]) == MessageFromDict(ds[i])
  {
    if ds != [] {
      MessagesFromDictsEach(ds[1..]);
      assert forall i :: 1 <= i < |ds| ==> ds[i] == ds[1..][i - 1];
    }
  }

  /** Serialising messages and reading them back gives the same messages in the same order. */
  lemma {:induction false} MessagesRoundTrip(ms: seq<Message>)
    ensures MessagesFromDicts(MessagesToDicts(ms)) == Ok(ms)
  {
    if ms != [] {
      assert MessagesToDicts(ms)[1..] == MessagesToDicts(ms[1..]);
      MessagesRoundTrip(ms[1..]);
      assert ms == [ms[0]] + ms[1..];
    }
  }

  /** Reading a list of records in two parts: the first error of the first part wins,
      then the first error of the second part, otherwise the messages are concatenated. */
  lemma {:induction false} MessagesFromDictsConcat(a: seq<Value>, b: seq<Value>)
    ensures MessagesFromDicts(a + b) ==
      match MessagesFromDicts(a)
      case Err(e) => Err(e)
      case Ok(x) =>
        match MessagesFromDicts(b)
        case Err(e) => Err(e)
        case Ok(y) => Ok(x + y)
  {
    if a != [] {
      assert (a + b)[0] == a[0] && (a + b)[1..] == a[1..] + b;
      MessagesFromDictsConcat(a[1..], b);
      match MessageFromDict(a[0])
      case Err(_) =>
      case Ok(m) =>
        match MessagesFromDicts(a[1..])
        case Err(_) =>
        case Ok(x) =>
          match MessagesFromDicts(b)
          case Err(_) =>
          case Ok(y) => assert [m] + (x + y) == ([m] + x) + y;
    } else {
      assert a + b == b;
      match MessagesFromDicts(b)
      case Err(_) =>
      case Ok(y) => assert [] + y == y;
    }
  }

  /** One record reads back to the one message it holds. */
  lemma MessagesFromDictsSingle(d: Value)
    ensures MessagesFromDicts([d]) ==
      match MessageFromDict(d)
      case Err(e) => Err(e)
      case Ok(m) => Ok([m])
  {
    assert [d][1..] == [];
    assert [d][0] == d;
    match MessageFromDict(d)
    case Err(_) =>
    case Ok(m) => assert [m] + [] == [m];
  }

  /** The three link lists of a node, `links["parents"]`, `links["forks"]` and
      `links["related"]`. */
  datatype Links = Links(parents: seq<string>, forks: seq<string>, related: seq<string>)

  function NoLinks(): Links {
    Links([], [], [])
  }

  /** `links` as `to_dict` stores it: a record of exactly the three lists. */
  function LinksToDict(l: Links): (d: Value)
    ensures d.Obj? && d.fields.Keys == {"parents", "forks", "related"}
  {
    Obj(map["parents" := Strs(l.parents), "forks" := Strs(l.forks),
             "related" := Strs(l.related)])
  }

  /** `data["links"]` as the node keeps it: the three lists are read, any other key of the
      record is ignored. A record missing a list fails on the first one missing. */
  function LinksFromDict(d: Value): (r: Result<Links, DecodeError>)
    ensures !d.Obj? ==> r == Err(NotARecord)
    ensures d.Obj? && "parents" !in d.fields ==> r == Err(MissingKey("parents"))
    ensures r.Ok? <==> (d.Obj? && {"parents", "forks", "related"} <= d.fields.Keys
                        && IsStrs(d.fields["parents"]) && IsStrs(d.fields["forks"])
                        && IsStrs(d.fields["related"]))
    ensures r.Ok? ==> d.fields["parents"] == Strs(r.value.parents)
                      && d.fields["forks"] == Strs(r.value.forks)
                      && d.fields["related"] == Strs(r.value.related)
  {
    var parents :- StrsField(d, "parents");
    var forks :- StrsField(d, "forks");
    var related :- StrsField(d, "related");
    Ok(Links(parents, forks, related))
  }

  lemma LinksRoundTrip(l: Links)
    ensures LinksFromDict(LinksToDict(l)) == Ok(l)
  {
    var d := LinksToDict(l);
    StrsFieldOfStrs(d, "parents", l.parents);
    StrsFieldOfStrs(d, "forks", l.forks);
    StrsFieldOfStrs(d, "related", l.related);
  }

  /** The value of every field of a `ThoughtNode`. */
  datatype NodeView = NodeView(
    id: string,
    title: string,
    tags: seq<string>,
    createdAt: string,
    updatedAt: string,
    content: seq<Message>,
    links: Links,
    versions: seq<Value>,
    summary: string)

  /** The keys of a serialised node. */
  function NodeKeys(): set<string> {
    {"id", "title", "tags", "created_at", "updated_at", "content", "links", "versions",
     "summary"}
  }

  /** `ThoughtNode.to_dict`: one key per field. Version records are stored as they are. */
  function NodeToDict(v: NodeView): (d: Value)
    ensures d.Obj? && d.fields.Keys == NodeKeys()
  {
    Obj(map[
      "id" := Str(v.id),
      "title" := Str(v.title),
      "tags" := Strs(v.tags),
      "created_at" := Str(v.createdAt),
      "updated_at" := Str(v.updatedAt),
      "content" := Arr(MessagesToDicts(v.content)),
      "links" := LinksToDict(v.links),
      "versions" := Arr(v.versions),
      "summary" := Str(v.summary)])
  }

  /** `ThoughtNode.from_dict`: the fields in the order the constructor call reads them,
      then the messages of "content" one by one. */
  function NodeFromDict(d: Value): (r: Result<NodeView, DecodeError>)
    ensures !d.Obj? ==> r == Err(NotARecord)
    ensures d.Obj? && "id" !in d.fields ==> r == Err(MissingKey("id"))
    ensures r.Ok? ==> d.Obj? && d.fields.Keys >= NodeKeys()
    ensures r.Ok? ==> d.fields["id"] == Str(r.value.id)
                      && d.fields["title"] == Str(r.value.title)
                      && d.fields["tags"] == Strs(r.value.tags)
                      && d.fields["created_at"] == Str(r.value.createdAt)
                      && d.fields["updated_at"] == Str(r.value.updatedAt)
                      && LinksFromDict(d.fields["links"]) == Ok(r.value.links)
                      && d.fields["versions"] == Arr(r.value.versions)
                      && d.fields["summary"] == Str(r.value.summary)
    ensures r.Ok? ==> d.fields["content"].Arr?
                      && MessagesFromDicts(d.fields["content"].items) == Ok(r.value.content)
  {
    var id :- StrField(d, "id");
    var title :- StrField(d, "title");
    var tags :- StrsField(d, "tags");
    var createdAt :- StrField(d, "created_at");
    var updatedAt :- StrField(d, "updated_at");
    var linksValue :- Field(d, "links");
    var links :- LinksFromDict(linksValue);
    var versions :- ArrField(d, "versions");
    var summary :- StrField(d, "summary");
    var items :- ArrField(d, "content");
    var content :- MessagesFromDicts(items);
    Ok(NodeView(id, title, tags, createdAt, updatedAt, content, links, versions, summary))
  }

  /** The converse of what `NodeFromDict` ensures on success: a record holding the nine
      keys with the values a node reads from them is read successfully, whatever other keys
      it, its "links" record or its messages hold. */
  lemma NodeFromDictAccepts(v: NodeView, d: Value)
    requires d.Obj? && d.fields.Keys >= NodeKeys()
    requires d.fields["id"] == Str(v.id) && d.fields["title"] == Str(v.title)
    requires d.fields["tags"] == Strs(v.tags)
    requires d.fields["created_at"] == Str(v.createdAt)
    requires d.fields["updated_at"] == Str(v.updatedAt)
    requires LinksFromDict(d.fields["links"]) == Ok(v.links)
    requires d.fields["versions"] == Arr(v.versions) && d.fields["summary"] == Str(v.summary)
    requires d.fields["content"].Arr?
    requires MessagesFromDicts(d.fields["content"].items) == Ok(v.content)
    ensures NodeFromDict(d) == Ok(v)
  {
    StrsFieldOfStrs(d, "tags", v.tags);
  }

  /** In particular, extra top-level keys are ignored: a record that agrees with the
      serialised node on the nine keys reads back to that node. */
  lemma NodeFromDictIgnoresOtherKeys(v: NodeView, d: Value)
    requires d.Obj? && d.fields.Keys >= NodeKeys()
    requires forall k :: k in NodeKeys() ==> d.fields[k] == NodeToDict(v).fields[k]
    ensures NodeFromDict(d) == Ok(v)
  {
    var e := NodeToDict(v);
    assert d.fields["id"] == e.fields["id"] == Str(v.id);
    assert d.fields["title"] == e.fields["title"] == Str(v.title);
    assert d.fields["tags"] == e.fields["tags"] == Strs(v.tags);
    assert d.fields["created_at"] == e.fields["created_at"] == Str(v.createdAt);
    assert d.fields["updated_at"] == e.fields["updated_at"] == Str(v.updatedAt);
    assert d.fields["links"] == e.fields["links"] == LinksToDict(v.links);
    assert d.fields["versions"] == e.fields["versions"] == Arr(v.versions);
    assert d.fields["summary"] == e.fields["summary"] == Str(v.summary);
    assert d.fields["content"] == e.fields["content"] == Arr(MessagesToDicts(v.content));
    LinksRoundTrip(v.links);
    MessagesRoundTrip(v.content);
    NodeFromDictAccepts(v, d);
  }

  /** Every field survives serialising a node and reading it back, the messages rebuilt
      one by one in their original order. */
  lemma {:induction false} NodeRoundTrip(v: NodeView)
    ensures NodeFromDict(NodeToDict(v)) == Ok(v)
  {
    var d := NodeToDict(v);
    assert StrField(d, "id") == Ok(v.id);
    assert StrField(d, "title") == Ok(v.title);
    StrsFieldOfStrs(d, "tags", v.tags);
    assert StrField(d, "created_at") == Ok(v.createdAt);
    assert StrField(d, "updated_at") == Ok(v.updatedAt);
    assert Field(d, "links") == Ok(LinksToDict(v.links));
    assert ArrField(d, "versions") == Ok(v.versions);
    assert StrField(d, "summary") == Ok(v.summary);
    assert ArrField(d, "content") == Ok(MessagesToDicts(v.content));
    LinksRoundTrip(v.links);
    MessagesRoundTrip(v.content);
  }

  /** The record `create_version` appends: a fresh id, a timestamp, the description, the
      serialised messages and the node's summary. */
  function VersionRecord(id: string, timestamp: string, description: string,
                         content: seq<Message>, summary: string): (r: Value)
    ensures r.Obj? && r.fields.Keys == {"id", "timestamp", "description", "content", "summary"}
  {
    Obj(map[
      "id" := Str(id),
      "timestamp" := Str(timestamp),
      "description" := Str(description),
      "content" := Arr(MessagesToDicts(content)),
      "summary" := Str(summary)])
  }

  /** A version record holds the id, timestamp, description and summary it was given, and
      its "content" reads back to the messages it was made from. */
  lemma VersionRecordHolds(id: string, timestamp: string, description: string,
                           content: seq<Message>, summary: string)
    ensures var rec := VersionRecord(id, timestamp, description, content, summary);
      && StrField(rec, "id") == Ok(id)
      && StrField(rec, "timestamp") == Ok(timestamp)
      && StrField(rec, "summary") == Ok(summary)
      && StrField(rec, "description") == Ok(description)
      && ArrField(rec, "content") == Ok(MessagesToDicts(content))
      && MessagesFromDicts(MessagesToDicts(content)) == Ok(content)
  {
    MessagesRoundTrip(content);
  }

  /** A conversation node whose lists the mutators update in place. */
  class ThoughtNode {
    var id: string
    var title: string
    var tags: seq<string>
    var createdAt: string
    var updatedAt: string
    var content: seq<Message>
    var links: Links
    var versions: seq<Value>
    var summary: string

    function View(): NodeView
      reads this
    {
      NodeView(id, title, tags, createdAt, updatedAt, content, links, versions, summary)
    }

    /** The dataclass constructor; the defaults (a fresh uuid, the current time, empty
        lists) are for the caller to supply. */
    constructor (id: string, title: string, tags: seq<string>, createdAt: string,
                 updatedAt: string, content: seq<Message>, links: Links,
                 versions: seq<Value>, summary: string)
      ensures View() == NodeView(id, title, tags, createdAt, updatedAt, content, links,
                                 versions, summary)
    {
      this.id := id;
      this.title := title;
      this.tags := tags;
      this.createdAt := createdAt;
      this.updatedAt := updatedAt;
      this.content := content;
      this.links := links;
      this.versions := versions;
      this.summary := summary;
    }

    /** `add_message`: the message, stamped with the reading `stamp`, goes at the end
        of the transcript and `updated_at` takes the later reading `now`. */
    method AddMessage(typ: MessageType, text: string, stamp: string, now: string)
      modifies this
      ensures content == old(content) + [Message(typ, text, stamp)]
      ensures View() == old(View()).(content := content, updatedAt := now)
    {
      content := content + [Message(typ, text, stamp)];
      updatedAt := now;
    }

    /** `add_tag`: a tag already present changes nothing at all; a new one is appended
        and `updated_at` set. A duplicate-free tag list stays duplicate-free. */
    method AddTag(tag: string, now: string)
      modifies this
      ensures tags == AppendIfAbsent(old(tags), tag)
      ensures tag in old(tags) ==> View() == old(View())
      ensures tag !in old(tags) ==> View() == old(View()).(tags := tags, updatedAt := now)
      ensures NoDup(old(tags)) ==> NoDup(tags)
    {
      if tag !in tags {
        tags := tags + [tag];
        updatedAt := now;
      }
    }

    /** `remove_tag`: an absent tag changes nothing; a present one loses its first
        occurrence and `updated_at` is set. From a duplicate-free list the tag is gone. */
    method RemoveTag(tag: string, now: string)
      modifies this
      ensures tags == RemoveFirst(old(tags), tag)
      ensures tag !in old(tags) ==> View() == old(View())
      ensures tag in old(tags) ==> View() == old(View()).(tags := tags, updatedAt := now)
      ensures NoDup(old(tags)) ==> tag !in tags && NoDup(tags)
    {
      if tag in tags {
        if NoDup(tags) {
          RemoveFirstFromNoDup(tags, tag);
        }
        tags := RemoveFirst(tags, tag);
        updatedAt := now;
      }
    }

    /** `add_parent`: only `links["parents"]` can change, and `updated_at` only when the
        id is new. */
    method AddParent(parentId: string, now: string)
      modifies this
      ensures links == old(links).(parents := AppendIfAbsent(old(links.parents), parentId))
      ensures parentId in old(links.parents) ==> View() == old(View())
      ensures parentId !in old(links.parents) ==>
                View() == old(View()).(links := links, updatedAt := now)
    {
      if parentId !in links.parents {
        links := links.(parents := links.parents + [parentId]);
        updatedAt := now;
      }
    }

    /** `add_fork`: only `links["forks"]` can change, and `updated_at` only when the id
        is new. */
    method AddFork(forkId: string, now: string)
      modifies this
      ensures links == old(links).(forks := AppendIfAbsent(old(links.forks), forkId))
      ensures forkId in old(links.forks) ==> View() == old(View())
      ensures forkId !in old(links.forks) ==>
                View() == old(View()).(links := links, updatedAt := now)
    {
      if forkId !in links.forks {
        links := links.(forks := links.forks + [forkId]);
        updatedAt := now;
      }
    }

    /** `add_related`: only `links["related"]` can change, and `updated_at` only when the
        id is new. */
    method AddRelated(relatedId: string, now: string)
      modifies this
      ensures links == old(links).(related := AppendIfAbsent(old(links.related), relatedId))
      ensures relatedId in old(links.related) ==> View() == old(View())
      ensures relatedId !in old(links.related) ==>
                View() == old(View()).(links := links, updatedAt := now)
    {
      if relatedId !in links.related {
        links := links.(related := links.related + [relatedId]);
        updatedAt := now;
      }
    }

    /** `create_version`: one more version record, holding the serialised transcript and
        the node's summary; the transcript itself is untouched. Python's default
        description is the empty string, which a caller passes here as `""`. */
    method CreateVersion(description: string, versionId: string, stamp: string, now: string)
      modifies this
      ensures versions == old(versions) + [VersionRecord(versionId, stamp, description,
                                                         old(content), old(summary))]
      ensures View() == old(View()).(versions := versions, updatedAt := now)
    {
      versions := versions + [VersionRecord(versionId, stamp, description, content, summary)];
      updatedAt := now;
    }

    /** `to_dict`: a record that `from_dict` reads back to this node's every field. */
    function ToDict(): (d: Value)
      reads this
      ensures d.Obj? && d.fields.Keys == NodeKeys()
      ensures NodeFromDict(d) == Ok(View())
    {
      NodeRoundTrip(View());
      NodeToDict(View())
    }

    /** `from_dict`: builds the node from the scalar fields, then appends the messages of
        "content" one at a time; fails exactly as `NodeFromDict` does. */
    static method FromDict(d: Value) returns (r: Result<ThoughtNode, DecodeError>)
      ensures r.Err? ==> NodeFromDict(d) == Err(r.error)
      ensures r.Ok? ==> fresh(r.value) && NodeFromDict(d) == Ok(r.value.View())
    {
      var id :- StrField(d, "id");
      var title :- StrField(d, "title");
      var tags :- StrsField(d, "tags");
      var createdAt :- StrField(d, "created_at");
      var updatedAt :- StrField(d, "updated_at");
      var linksValue :- Field(d, "links");
      var links :- LinksFromDict(linksValue);
      var versions :- ArrField(d, "versions");
      var summary :- StrField(d, "summary");
      var node := new ThoughtNode(id, title, tags, createdAt, updatedAt, [], links,
                                  versions, summary);
      var items :- ArrField(d, "content");
      var i := 0;
      while i < |items|
        invariant 0 <= i <= |items|
        invariant MessagesFromDicts(items[..i]) == Ok(node.content)
        invariant node.View() == NodeView(id, title, tags, createdAt, updatedAt,
                                          node.content, links, versions, summary)
      {
        MessagesFromDictsConcat(items[..i], [items[i]]);
        MessagesFromDictsSingle(items[i]);
        assert items[..i + 1] == items[..i] + [items[i]];
        var m := MessageFromDict(items[i]);
        if m.Err? {
          MessagesFromDictsConcat(items[..i], items[i..]);
          assert items == items[..i] + items[i..];
          assert items[i..][0] == items[i];
          return Err(m.error);
        }
        node.content := node.content + [m.value];
        i := i + 1;
      }
      assert items[..i] == items;
      r := Ok(node);
    }
  }
}
