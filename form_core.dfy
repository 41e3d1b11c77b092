/**
 * Values shared by every page-level form of the site: what a field holds,
 * what the error map looks like, the lifecycle status of one submit, the
 * outcome of the (abstract) HTTP call, and the request a form sends.
 */
module FormCore {

  datatype Option<+T> = None | Some(value: T)

  /** An input's `File` object; the model never looks inside one. */
  datatype FileRef = FileRef(id: nat)

  /** A value of the `formData` object: a string, the consent checkbox, or a file list. */
  datatype Value = Text(text: string) | Flag(flag: bool) | Files(files: seq<FileRef>)

  /**
   * `formData`: field name to value. Each form names its fields by a
   * datatype of its own whose constructors stand for the object's keys.
   */
  type FormData<F(==)> = map<F, Value>

  /** A key of `formErrors`: one of the form's fields, or the reserved key `general`. */
  datatype ErrorKey<+F> = On(field: F) | General

  /**
   * `formErrors`: key to message. An entry the source sets to `undefined`
   * is absent here: every read of the map (`formErrors[name]`,
   * `formErrors.general &&`) treats the two alike.
   */
  type ErrorMap<F(==)> = map<ErrorKey<F>, string>

  /** `submissionStatus`: `null`, `'success'` or `'error'`. */
  datatype SubmissionStatus = Unset | Success | Error

  /**
   * What `await axios.post(...)` did: it resolved with a response status,
   * or it threw. A thrown error carries the response status when it is an
   * axios error that received a response, and None otherwise (no response,
   * or not an axios error).
   */
  datatype Outcome = Status(status: int) | Thrown(response: Option<int>)

  /** One part appended to a `FormData` body, under the name of field `name`. */
  datatype PartBody = TextBody(text: string) | FileBody(file: FileRef)
  datatype Part<+F> = Part(name: F, body: PartBody)

  /** The body handed to `axios.post`: a plain object (sent as JSON) or a multipart body. */
  datatype Payload<F(==)> = Json(fields: FormData<F>) | Multipart(parts: seq<Part<F>>)

  datatype Request<F(==)> = Request(url: string, payload: Payload<F>)

  /** The string held by field `k`; "" when `k` holds no string. */
  function TextOf<F(==)>(data: FormData<F>, k: F): string
  {
    if k in data && data[k].Text? then data[k].text else ""
  }

  /** The boolean held by field `k`; false when `k` holds no boolean. */
  function FlagOf<F(==)>(data: FormData<F>, k: F): bool
  {
    k in data && data[k].Flag? && data[k].flag
  }

  /** The file list held by field `k`; empty when `k` holds no list. */
  function FilesOf<F(==)>(data: FormData<F>, k: F): seq<FileRef>
  {
    if k in data && data[k].Files? then data[k].files else []
  }

  /** Every message of the map is a non-empty string, so "has an entry" and "is truthy" agree. */
  predicate MessagesNonEmpty<F(==)>(errors: ErrorMap<F>)
  {
    forall k :: k in errors ==> errors[k] != ""
  }

  /**
   * The error map a validation pass over `fields` builds, one field after
   * the other: an entry under each field whose rule gives a message, and
   * nothing else.
   */
  function ErrorsFrom<F(==,!new)>(fields: seq<F>, rule: F -> Option<string>): (errs: ErrorMap<F>)
    ensures General !in errs
    ensures forall f :: On(f) in errs <==> f in fields && rule(f).Some?
    ensures forall f :: On(f) in errs ==> errs[On(f)] == rule(f).value
  {
    if fields == [] then map[]
    else
      var f := fields[|fields| - 1];
      var rest := ErrorsFrom(fields[..|fields| - 1], rule);
      if rule(f).Some? then rest[On(f) := rule(f).value] else rest
  }

  /** The `validate` pass: start from an empty map and record each field's message in turn. */
  method CollectErrors<F(==,!new)>(fields: seq<F>, rule: F -> Option<string>) returns (errors: ErrorMap<F>)
    ensures errors == ErrorsFrom(fields, rule)
  {
    errors := map[];
    for i := 0 to |fields|
      invariant errors == ErrorsFrom(fields[..i], rule)
    {
      assert fields[..i + 1][..i] == fields[..i];
      var message := rule(fields[i]);
      if message.Some? {
        errors := errors[On(fields[i]) := message.value];
      }
    }
    assert fields[..|fields|] == fields;
  }

  /** When no rule gives an empty message, the map holds no empty message. */
  lemma ErrorsFromMessages<F(!new)>(fields: seq<F>, rule: F -> Option<string>)
    requires forall f :: rule(f).Some? ==> rule(f).value != ""
    ensures MessagesNonEmpty(ErrorsFrom(fields, rule))
  {
    var errs := ErrorsFrom(fields, rule);
    forall k | k in errs
      ensures errs[k] != ""
    {
      assert k.On?;
    }
  }

  /** Two rule sets that agree on every field build the same error map. */
  lemma {:induction false} ErrorsFromAgree<F(!new)>(fields: seq<F>, rule1: F -> Option<string>, rule2: F -> Option<string>)
    requires forall i :: 0 <= i < |fields| ==> rule1(fields[i]) == rule2(fields[i])
    ensures ErrorsFrom(fields, rule1) == ErrorsFrom(fields, rule2)
  {
    if fields != [] {
      var init := fields[..|fields| - 1];
      assert forall i :: 0 <= i < |init| ==> init[i] == fields[i];
      ErrorsFromAgree(init, rule1, rule2);
    }
  }

  /** The keys of `keys`, in order, leaving out those in `skip` (a `for ... in` loop with an `if`). */
  function Without<F(==)>(keys: seq<F>, skip: set<F>): (r: seq<F>)
    ensures |r| <= |keys|
  {
    if keys == [] then []
    else
      var last := keys[|keys| - 1];
      Without(keys[..|keys| - 1], skip) + (if last in skip then [] else [last])
  }

  /** When no key is skipped, the loop visits every key. */
  lemma {:induction false} WithoutNothingSkipped<F>(keys: seq<F>, skip: set<F>)
    requires forall i :: 0 <= i < |keys| ==> keys[i] !in skip
    ensures Without(keys, skip) == keys
  {
    if keys != [] {
      var init := keys[..|keys| - 1];
      assert forall i :: 0 <= i < |init| ==> init[i] == keys[i];
      WithoutNothingSkipped(init, skip);
      assert init + [keys[|keys| - 1]] == keys;
    }
  }

  /** The loop visits exactly the keys not skipped. */
  lemma {:induction false} WithoutMembers<F>(keys: seq<F>, skip: set<F>)
    ensures forall x :: x in Without(keys, skip) <==> x in keys && x !in skip
  {
    if keys != [] {
      var init := keys[..|keys| - 1];
      WithoutMembers(init, skip);
      assert keys == init + [keys[|keys| - 1]];
    }
  }

  /** The part `submissionData.append(k, formData[k])` adds for a text field. */
  function TextPart<F(==)>(data: FormData<F>, k: F): Part<F>
  {
    Part(k, TextBody(TextOf(data, k)))
  }

  /** One text part per key, in the order of `keys`. */
  function TextParts<F(==)>(data: FormData<F>, keys: seq<F>): seq<Part<F>>
  {
    seq(|keys|, i requires 0 <= i < |keys| => TextPart(data, keys[i]))
  }

  /** One file part under `name` per file, in list order. */
  function FileParts<F>(name: F, files: seq<FileRef>): seq<Part<F>>
  {
    seq(|files|, i requires 0 <= i < |files| => Part(name, FileBody(files[i])))
  }

  lemma TextPartsSnoc<F>(data: FormData<F>, keys: seq<F>, k: F)
    ensures TextParts(data, keys + [k]) == TextParts(data, keys) + [TextPart(data, k)]
  {
  }

  /**
   * One more step of a `for (key in formData)` loop that appends every key
   * not in `skip`: the parts for the first i + 1 keys are those for the
   * first i, plus the part for key i when it is not skipped.
   */
  lemma KeyLoopStep<F>(data: FormData<F>, keys: seq<F>, skip: set<F>, i: nat)
    requires i < |keys|
    ensures TextParts(data, Without(keys[..i + 1], skip)) ==
      TextParts(data, Without(keys[..i], skip)) + (if keys[i] in skip then [] else [TextPart(data, keys[i])])
  {
    assert keys[..i + 1][..i] == keys[..i];
    if keys[i] !in skip {
      TextPartsSnoc(data, Without(keys[..i], skip), keys[i]);
    }
  }

  /** After the last step the loop has visited every key. */
  lemma KeyLoopDone<F>(data: FormData<F>, keys: seq<F>, skip: set<F>)
    ensures TextParts(data, Without(keys[..|keys|], skip)) == TextParts(data, Without(keys, skip))
  {
    assert keys[..|keys|] == keys;
  }

  lemma FilePartsSnoc<F>(name: F, files: seq<FileRef>, j: nat)
    requires j < |files|
    ensures FileParts(name, files[..j + 1]) == FileParts(name, files[..j]) + [Part(name, FileBody(files[j]))]
  {
  }

  /** The key loop of a multipart submit: append `data[key]` for every key of `keys` not in `skip`, in order. */
  method AppendTextParts<F(==)>(data: FormData<F>, keys: seq<F>, skip: set<F>) returns (parts: seq<Part<F>>)
    ensures parts == TextParts(data, Without(keys, skip))
  {
    parts := [];
    for i := 0 to |keys|
      invariant parts == TextParts(data, Without(keys[..i], skip))
    {
      KeyLoopStep(data, keys, skip, i);
      if keys[i] !in skip {
        parts := parts + [TextPart(data, keys[i])];
      }
    }
    KeyLoopDone(data, keys, skip);
  }

  /** The file loop of a multipart submit: append one part under `name` per file, in list order. */
  method AppendFileParts<F>(prefix: seq<Part<F>>, name: F, files: seq<FileRef>) returns (parts: seq<Part<F>>)
    ensures parts == prefix + FileParts(name, files)
  {
    parts := prefix;
    for j := 0 to |files|
      invariant parts == prefix + FileParts(name, files[..j])
    {
      FilePartsSnoc(name, files, j);
      parts := parts + [Part(name, FileBody(files[j]))];
    }
    assert files[..|files|] == files;
  }
}
