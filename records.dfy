/**
 * The dictionaries the validator passes around: call results, model records and
 * per-model answer entries, and the one exception the core can raise.
 */
module Records {
  import opened Wrappers

  /** A value held in one of the source's dictionaries: a string, a boolean
      (the `success` key), or `None` (what `dict.get` yields for a missing key). */
  datatype Value = Str(s: string) | Flag(b: bool) | Null

  /** A per-model entry: a dictionary from key to value. Merging two entries
      right-biased, `{**a, **b}`, is `a + b`. */
  type Entry = map<string, Value>

  /** `e.get(key, default)` */
  function Get(e: Entry, key: string, default: Value): Value {
    if key in e then e[key] else default
  }

  /** How an f-string renders a value. */
  function Show(v: Value): string {
    match v
    case Str(s) => s
    case Flag(b) => if b then "True" else "False"
    case Null => "None"
  }

  /** One role-tagged chat message. */
  datatype Message = Message(role: string, content: string)

  /** The outcome of one provider call: `{success: True, content}` or
      `{success: False, error}`. */
  datatype CallResult = Answered(content: string) | Failed(error: string)

  /** The dictionary a provider call returns. */
  function ResultDict(r: CallResult): (d: Entry)
    ensures d.Keys == (if r.Answered? then {"success", "content"} else {"success", "error"})
    ensures d["success"] == Flag(r.Answered?)
    ensures r.Answered? ==> d["content"] == Str(r.content)
    ensures r.Failed? ==> d["error"] == Str(r.error)
  {
    match r
    case Answered(c) => map["success" := Flag(true), "content" := Str(c)]
    case Failed(e) => map["success" := Flag(false), "error" := Str(e)]
  }

  /** One configured model: `{name, model_id, api}` as configured at start-up,
      or `{name, model_id, display_name}` as added later (such a record has no `api`). */
  datatype ModelRecord = ModelRecord(name: string, modelId: string, api: Option<string>, displayName: Option<string>)

  /** The dictionary a model record is. */
  function RecordDict(m: ModelRecord): (d: Entry)
    ensures d.Keys <= {"name", "model_id", "api", "display_name"}
    ensures "name" in d && d["name"] == Str(m.name)
    ensures "model_id" in d && d["model_id"] == Str(m.modelId)
    ensures "api" in d <==> m.api.Some?
    ensures "display_name" in d <==> m.displayName.Some?
    ensures m.displayName.Some? ==> d["display_name"] == Str(m.displayName.value)
  {
    map["name" := Str(m.name), "model_id" := Str(m.modelId)]
    + (if m.api.Some? then map["api" := Str(m.api.value)] else map[])
    + (if m.displayName.Some? then map["display_name" := Str(m.displayName.value)] else map[])
  }

  /** The names of the configured models, in order. */
  function Names(models: seq<ModelRecord>): (r: seq<string>)
    ensures |r| == |models| && forall i :: 0 <= i < |models| ==> r[i] == models[i].name
  {
    seq(|models|, i requires 0 <= i < |models| => models[i].name)
  }

  /** The only exception the core raises: indexing a dictionary with a missing key. */
  datatype Exception = KeyError(key: string)

  /** A Python call that either returns a value or raises. */
  datatype Outcome<T> = Returned(value: T) | Raised(exc: Exception)
}
