// The status badge (src/components/StatusBadge.jsx): a colour class looked up
// by the lower-cased status with a gray fallback, and a label that
// capitalises the status's first character.
module StatusBadge {
  import opened Common
  import opened Strings

  const BaseClass := "text-xs sm:text-sm px-2 py-1 rounded-full font-semibold transition-all duration-200"
  const PendingClass := "bg-yellow-100 text-yellow-700 border border-yellow-400"
  const SignedClass := "bg-green-100 text-green-700 border border-green-500"
  const RejectedClass := "bg-red-100 text-red-700 border border-red-500"
  const FallbackClass := "bg-gray-200 text-gray-700 border border-gray-300"

  /** The three keys the `statusColors` table defines itself. */
  function OwnColor(key: string): Option<string> {
    if key == "pending" then Some(PendingClass)
    else if key == "signed" then Some(SignedClass)
    else if key == "rejected" then Some(RejectedClass)
    else None
  }

  /**
   * The all-lower-case properties every plain object inherits from
   * Object.prototype, as a template literal prints them. Only these can be
   * reached with a lower-cased key.
   */
  function InheritedProperty(key: string): Option<string> {
    if key == "constructor" then Some("function Object() { [native code] }")
    else if key == "__proto__" then Some("[object Object]")
    else None
  }

  /** `statusColors[status.toLowerCase()] || fallback` as JavaScript evaluates it, inherited properties included. */
  function ColorClassAsWritten(status: string): (r: string)
    ensures r == FallbackClass <==> ToLower(status) !in {"pending", "signed", "rejected", "constructor", "__proto__"}
  {
    var key := ToLower(status);
    if OwnColor(key).Some? then OwnColor(key).value
    else if InheritedProperty(key).Some? then InheritedProperty(key).value
    else FallbackClass
  }

  /**
   * A document whose status is "constructor" (in any case) gets the text of
   * the Object function as its class list, not the gray fallback.
   */
  lemma ConstructorStatusMissesFallback(status: string)
    requires ToLower(status) == "constructor"
    ensures ColorClassAsWritten(status) == "function Object() { [native code] }"
    ensures ColorClassAsWritten(status) != FallbackClass
  {
  }

  /** The evident intent: the table's own entry for the lower-cased status, else the gray fallback. */
  function ColorClass(status: string): (r: string)
    ensures r == PendingClass <==> ToLower(status) == "pending"
    ensures r == SignedClass <==> ToLower(status) == "signed"
    ensures r == RejectedClass <==> ToLower(status) == "rejected"
    ensures r == FallbackClass <==> ToLower(status) !in {"pending", "signed", "rejected"}
  {
    var key := ToLower(status);
    if OwnColor(key).Some? then OwnColor(key).value else FallbackClass
  }

  /** Away from the inherited property names, the lookup as written and the corrected one agree. */
  lemma AsWrittenAgreesElsewhere(status: string)
    requires ToLower(status) !in {"constructor", "__proto__"}
    ensures ColorClassAsWritten(status) == ColorClass(status)
  {
  }

  /** The lookup ignores case: "Signed" and "SIGNED" get the class of "signed". */
  lemma ColorClassIgnoresCase(status: string)
    ensures ColorClass(status) == ColorClass(ToLower(status))
  {
    ToLowerIdempotent(status);
  }

  /** `status.charAt(0).toUpperCase() + status.slice(1)`. */
  function Label(status: string): (r: string)
    ensures |r| == |status|
    ensures status != "" ==> r[0] == UpperChar(status[0]) && r[1..] == status[1..]
  {
    if status == "" then "" else [UpperChar(status[0])] + status[1..]
  }

  lemma LowerOfUpper(c: char)
    ensures LowerChar(UpperChar(c)) == LowerChar(c)
  {
  }

  /** The capitalised label lower-cases to the same key, so it would get the same colour. */
  lemma LabelKeepsColor(status: string)
    ensures ToLower(Label(status)) == ToLower(status)
    ensures ColorClass(Label(status)) == ColorClass(status)
  {
    if status != "" {
      var head, tail := [status[0]], status[1..];
      assert status == head + tail;
      assert Label(status) == [UpperChar(status[0])] + tail;
      ToLowerAppend(head, tail);
      ToLowerAppend([UpperChar(status[0])], tail);
      LowerOfUpper(status[0]);
    }
  }

  /** The rendered badge: its class list and the text it shows. */
  datatype Badge = Badge(className: string, caption: string)

  /**
   * `StatusBadge({ status = 'pending' })`, with the corrected colour lookup;
   * `None` is a status prop left undefined. It differs from the component as
   * written only for the inherited property names.
   */
  function Render(status: Option<string>): (b: Badge)
    ensures status.None? ==> b == Badge(BaseClass + " " + PendingClass, "Pending")
    ensures status == Some("") ==> b == Badge(BaseClass + " " + FallbackClass, "")
    ensures status.Some? ==> b.caption == Label(status.value)
    ensures status.Some? && ToLower(status.value) !in {"constructor", "__proto__"} ==>
              b.className == BaseClass + " " + ColorClassAsWritten(status.value)
  {
    var s := if status.Some? then status.value else "pending";
    ToLowerOfLower("pending");
    Badge(BaseClass + " " + ColorClass(s), Label(s))
  }
}
