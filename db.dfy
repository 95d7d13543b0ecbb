/** The three collections the server routes read and write, held in memory. */
module Db {
  import opened Wrappers
  import opened Records
  import opened UserModel

  class Database {
    var products: map<Id, Product>
    var orders: map<Id, Order>
    var users: map<Id, User>

    constructor ()
      ensures products == map[] && orders == map[] && users == map[]
    {
      products := map[];
      orders := map[];
      users := map[];
    }
  }
}
