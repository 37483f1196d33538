// The task form: the submitted fields become a task, and every field named "tag-<name>" adds
// the tag <name> (handlers/tasksHandlers.go).
module TaskHandlers {
  import opened Clock
  import opened Tasks
  import Strconv
  import Strs

  /** A submitted form: each field name with its values, as url.Values holds them. */
  type Form = map<string, seq<string>>

  const TagPrefix: string := "tag-"
  const CheckboxOn: string := "on"

  /** Request.FormValue: the first value of the field, or "" when there is none. */
  function FormValue(form: Form, key: string): (v: string)
    ensures key in form && |form[key]| > 0 ==> v == form[key][0]
    ensures !(key in form && |form[key]| > 0) ==> v == ""
  {
    if key in form && |form[key]| > 0 then form[key][0] else ""
  }

  /**
   * The task fields of resolveTaskFromForm. Priority, impact and cost fall back to Medium,
   * Moderate and 0 when they do not parse; the task is completed now exactly when its checkbox is
   * on; fields the form does not carry keep Go's zero values.
   */
  function FormTask(form: Form, now: Time): (t: Task)
    ensures t.id == FormValue(form, "card-id") && t.content == FormValue(form, "card-text")
    ensures t.title == FormValue(form, "card-title")
    ensures t.priority == StrToTaskPriority(FormValue(form, "modal-task-priority")).value
    ensures t.impact == StrToImpact(FormValue(form, "modal-task-impact")).value
    ensures t.cost == StrToEnum(FormValue(form, "modal-task-cost")).value
    ensures t.wip <==> FormValue(form, "task-wip") == CheckboxOn
    ensures t.planned <==> FormValue(form, "task-planned") == CheckboxOn
    ensures t.completed == if FormValue(form, "task-completed") == CheckboxOn then now else NotCompleted
    ensures t.created == NotCompleted && t.updated == NotCompleted && t.fun == 0 && t.value == 0.0 && t.tags == []
  {
    var completed := if FormValue(form, "task-completed") == CheckboxOn then now else NotCompleted;
    Task(FormValue(form, "card-id"), FormValue(form, "card-title"), FormValue(form, "card-text"),
         NotCompleted, NotCompleted, completed,
         StrToTaskPriority(FormValue(form, "modal-task-priority")).value,
         FormValue(form, "task-wip") == CheckboxOn, FormValue(form, "task-planned") == CheckboxOn,
         StrToImpact(FormValue(form, "modal-task-impact")).value,
         StrToEnum(FormValue(form, "modal-task-cost")).value, 0, 0.0, [])
  }

  /** An empty form gives the fallbacks: Medium priority, Moderate impact, cost 0, nothing set. */
  lemma EmptyFormTask(now: Time)
    ensures FormTask(map[], now) ==
      Task("", "", "", NotCompleted, NotCompleted, NotCompleted, PriorityMedium, false, false, ImpactModerate, 0, 0, 0.0, [])
  {
    Strconv.AtoiRejectsEmpty();
  }

  /** The tag names among a set of field names. */
  function TagsOf(keys: set<string>): set<string> {
    set k | k in keys && Strs.HasPrefix(k, TagPrefix) :: k[|TagPrefix|..]
  }

  /** A tag is chosen exactly when its own field is in the form. */
  lemma TagsOfMeaning(keys: set<string>, tag: string)
    ensures tag in TagsOf(keys) <==> TagPrefix + tag in keys
  {
    if TagPrefix + tag in keys {
      assert (TagPrefix + tag)[|TagPrefix|..] == tag;
    }
    if tag in TagsOf(keys) {
      var k :| k in keys && Strs.HasPrefix(k, TagPrefix) && k[|TagPrefix|..] == tag;
      assert k == TagPrefix + tag;
    }
  }

  /** One more field name: its tag joins the set, and is new there when the name is new. */
  lemma TagsOfStep(done: set<string>, k: string)
    requires k !in done
    ensures Strs.HasPrefix(k, TagPrefix) ==> k[|TagPrefix|..] !in TagsOf(done) && TagsOf(done + {k}) == TagsOf(done) + {k[|TagPrefix|..]}
    ensures !Strs.HasPrefix(k, TagPrefix) ==> TagsOf(done + {k}) == TagsOf(done)
  {
    if Strs.HasPrefix(k, TagPrefix) {
      assert k == TagPrefix + k[|TagPrefix|..];
      TagsOfMeaning(done, k[|TagPrefix|..]);
    }
  }

  /** The same step counted as multisets, as the loop of resolveTaskFromForm keeps them. */
  lemma TagCountStep(done: set<string>, k: string)
    requires k !in done
    ensures multiset(TagsOf(done + {k})) ==
      multiset(TagsOf(done)) + if Strs.HasPrefix(k, TagPrefix) then multiset{k[|TagPrefix|..]} else multiset{}
  {
    TagsOfStep(done, k);
  }

  /**
   * resolveTaskFromForm: the task of the form, and one tag for every field whose name starts
   * with "tag-", in the order the form's fields are visited.
   */
  method ResolveTaskFromForm(form: Form, now: Time) returns (task: Task, tags: seq<TaskTag>)
    ensures task == FormTask(form, now)
    ensures multiset(tags) == multiset(TagsOf(form.Keys))
  {
    tags := [];
    var rest := form.Keys;
    while rest != {}
      invariant rest <= form.Keys
      invariant multiset(tags) == multiset(TagsOf(form.Keys - rest))
      decreases |rest|
    {
      var key :| key in rest;
      var done := form.Keys - rest;
      TagCountStep(done, key);
      assert form.Keys - (rest - {key}) == done + {key};
      var cut := Strs.CutPrefix(key, TagPrefix);
      if cut.1 {
        assert cut.0 == key[|TagPrefix|..];
        tags := tags + [cut.0];
      }
      rest := rest - {key};
    }
    task := FormTask(form, now);
  }
}
