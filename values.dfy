/**
 * The JavaScript values the pipeline passes around: field values, documents
 * (an object's own properties as a map) and mutable objects such as a
 * request body.
 */
module Values {
  import opened Wrappers

  /** A field value; `ObjectId` is the store's identifier type, shown by its hexadecimal string. */
  datatype Value = Text(s: string) | Number(n: int) | Flag(b: bool) | Null | ObjectId(hex: string)

  /** A document or plain object: field name to value. */
  type Document = map<string, Value>

  /** JavaScript truthiness of an optional string: present and not empty. */
  predicate IsPresent(s: Option<string>) {
    s.Some? && s.value != ""
  }

  /**
   * A JavaScript object that code updates in place (`item._id = ...`,
   * `data.createdAt = ...`): its own enumerable properties, and the names of the
   * enumerable properties it inherits from its prototype chain.
   */
  class JsObject {
    var own: Document
    const inherited: set<string>

    constructor (own: Document, inherited: set<string>)
      ensures this.own == own && this.inherited == inherited
    {
      this.own := own;
      this.inherited := inherited;
    }
  }
}
