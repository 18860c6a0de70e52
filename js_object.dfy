/** JavaScript object lookup as the chart component uses it on its visibility map. */
module JsObject {

  /**
   * JavaScript truthiness of `charts[key]`: an absent own key reads as `undefined`, which is
   * false. Names inherited from `Object.prototype` are not modelled (they would read as truthy).
   */
  predicate Truthy(charts: map<string, bool>, key: string) {
    key in charts && charts[key]
  }
}
