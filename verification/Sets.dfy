/** Sizes of finite sets. */
module Sets {

  /** A part is no larger than the whole, and only the whole is as large. */
  lemma SubsetSize<T>(part: set<T>, whole: set<T>)
    requires part <= whole
    ensures |part| <= |whole| && (|part| >= |whole| ==> part == whole)
  {
    assert whole == part + (whole - part);
  }
}
