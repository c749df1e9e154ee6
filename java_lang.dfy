/** Small models of the Java and library facilities the release code leans on:
    nullable values, exceptions, java.util.HashMap, string conversion of null,
    plexus-utils' StringUtils, commons-lang's BooleanUtils and java.lang.Boolean.valueOf,
    and java.io.File path joining. */
module JavaLang {

  /** A possibly-null Java reference. */
  datatype Option<+T> = None | Some(value: T) {
    function GetOr(default: T): T {
      match this
      case Some(v) => v
      case None => default
    }
  }

  datatype Result<+R, +E> = Success(value: R) | Failure(error: E)

  /** The exception classes the modelled code throws or catches. */
  datatype ExceptionKind =
    | JenkinsReleaseException
    | TaskExecutionException
    | TaskQueueException
    | ReleaseDescriptorStoreException
    | ReleaseExecutionException
    | ReleaseFailureException
    | SettingsReadException      // IOException or XmlPullParserException from the settings builder
    | NullPointerException
    | ClassCastException
    | ArrayIndexOutOfBoundsException
    | NegativeArraySizeException

  datatype Exception = Exception(kind: ExceptionKind, message: string, cause: Option<Exception>)

  /** How a void Java method ended: normally, or by throwing. */
  datatype Outcome = Normal | Thrown(exception: Exception)

  /** String conversion as in `"a" + s`, where a null `s` renders as "null". */
  function Str(s: Option<string>): (r: string)
    ensures s.Some? ==> r == s.value
    ensures s.None? ==> r == "null"
  {
    s.GetOr("null")
  }

  /** Null or "": the negation of plexus-utils' StringUtils.isNotEmpty, which does not
      trim. */
  predicate IsEmpty(s: Option<string>) {
    s.None? || s.value == ""
  }

  /** String#trim's leading half: drops the characters up to U+0020 at the front. */
  function TrimStart(s: string): (t: string)
    ensures IsSuffix(t, s)
    ensures |t| > 0 ==> t[0] > ' '
    ensures forall i :: 0 <= i < |s| - |t| ==> s[i] <= ' '
  {
    if |s| > 0 && s[0] <= ' ' then TrimStart(s[1..]) else s
  }

  /** String#trim's trailing half: drops the characters up to U+0020 at the back. */
  function TrimEnd(s: string): (t: string)
    ensures |t| <= |s| && t == s[..|t|]
    ensures |t| > 0 ==> t[|t| - 1] > ' '
    ensures forall i :: |t| <= i < |s| ==> s[i] <= ' '
  {
    if |s| > 0 && s[|s| - 1] <= ' ' then TrimEnd(s[..|s| - 1]) else s
  }

  /** String#trim: the string without its leading and trailing characters up to U+0020.
      It is empty exactly when every character is one of those. */
  function Trim(s: string): (t: string)
    ensures |t| == 0 <==> forall i :: 0 <= i < |s| ==> s[i] <= ' '
    ensures |t| > 0 ==> t[0] > ' ' && t[|t| - 1] > ' '
  {
    TrimEnd(TrimStart(s))
  }

  /** plexus-utils' StringUtils.isEmpty: null, or nothing left after trimming. */
  predicate IsBlank(s: Option<string>) {
    s.None? || Trim(s.value) == ""
  }

  /** String#endsWith. */
  predicate IsSuffix(suffix: string, s: string) {
    |suffix| <= |s| && s[|s| - |suffix|..] == suffix
  }

  /** ASCII case folding; the only letters compared below are ASCII. */
  function Lower(c: char): char {
    if 'A' <= c <= 'Z' then (c as int + 32) as char else c
  }

  predicate EqualsIgnoreCase(s: string, t: string) {
    |s| == |t| && forall i :: 0 <= i < |s| ==> Lower(s[i]) == Lower(t[i])
  }

  /** java.lang.Boolean.valueOf(String): true exactly for "true" in any case. */
  predicate BooleanValueOf(s: Option<string>) {
    s.Some? && EqualsIgnoreCase(s.value, "true")
  }

  /** commons-lang 2 BooleanUtils.toBoolean(String): "true", "on" or "yes" in any case. */
  predicate ToBoolean(s: Option<string>) {
    s.Some? && (EqualsIgnoreCase(s.value, "true") || EqualsIgnoreCase(s.value, "on")
                || EqualsIgnoreCase(s.value, "yes"))
  }

  /** java.util.Properties#getProperty: the value, or null when the key is absent. */
  function GetProperty(props: map<string, string>, key: string): (r: Option<string>)
    ensures r.Some? <==> key in props
    ensures key in props ==> r.value == props[key]
  {
    if key in props then Some(props[key]) else None
  }

  /** `new File(parent, child).getPath()` with '/' as separator; a null parent yields
      the child alone. Separator normalisation is not modelled. */
  function NewFile(parent: Option<string>, child: string): string {
    match parent
    case None => child
    case Some(p) => p + "/" + child
  }

  /** A java.util.HashMap: a mutable object, so that two holders of one reference see
      each other's updates. */
  class HashMap<K(==), V> {
    var entries: map<K, V>

    constructor ()
      ensures entries == map[]
    {
      entries := map[];
    }

    method Put(key: K, value: V)
      modifies this
      ensures entries == old(entries)[key := value]
    {
      entries := entries[key := value];
    }

    method Remove(key: K)
      modifies this
      ensures entries == old(entries) - {key}
    {
      entries := entries - {key};
    }

    /** Map#get: the value, or null when absent. */
    function Get(key: K): (r: Option<V>)
      reads this
      ensures r.Some? <==> key in entries
      ensures key in entries ==> r.value == entries[key]
    {
      if key in entries then Some(entries[key]) else None
    }
  }

  /** The entries of a map reference, `map[]` standing for a map not yet created. */
  function EntriesOf<K, V>(m: HashMap?<K, V>): map<K, V>
    reads m
  {
    if m == null then map[] else m.entries
  }
}
