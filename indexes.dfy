/** The application's Index type: a position with both its zero-based and one-based readings. */
module Indexes {

  datatype Index = Index(zeroBased: nat) {
    function OneBased(): nat { zeroBased + 1 }
  }

  function FromOneBased(oneBased: nat): (i: Index)
    requires oneBased >= 1
    ensures i.OneBased() == oneBased
  {
    Index(oneBased - 1)
  }
}
