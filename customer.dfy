/** A customer record (com.crm.core.Customer); the id is supplied by the caller instead of a random UUID. */
module Customers {

  /** The state of a customer at one moment: what the store keeps. */
  datatype CustomerData = CustomerData(
    id: string,
    name: string,
    email: string,
    phone: string,
    role: string,
    notes: string)

  class Customer {
    const id: string
    var name: string
    var email: string
    var phone: string
    var role: string
    var notes: string

    /** The customer's current state as a value. */
    function Data(): CustomerData
      reads this
    {
      CustomerData(id, name, email, phone, role, notes)
    }

    /** A new customer without notes. */
    constructor (id: string, name: string, email: string, phone: string, role: string)
      ensures Data() == CustomerData(id, name, email, phone, role, "")
    {
      this.id := id;
      this.name := name;
      this.email := email;
      this.phone := phone;
      this.role := role;
      this.notes := "";
    }

    /** A new customer with every field as given. */
    constructor WithNotes(id: string, name: string, email: string, phone: string, role: string, notes: string)
      ensures Data() == CustomerData(id, name, email, phone, role, notes)
    {
      this.id := id;
      this.name := name;
      this.email := email;
      this.phone := phone;
      this.role := role;
      this.notes := notes;
    }

    method SetName(name: string)
      modifies this
      ensures Data() == old(Data()).(name := name)
    {
      this.name := name;
    }

    method SetEmail(email: string)
      modifies this
      ensures Data() == old(Data()).(email := email)
    {
      this.email := email;
    }

    method SetPhone(phone: string)
      modifies this
      ensures Data() == old(Data()).(phone := phone)
    {
      this.phone := phone;
    }

    method SetRole(role: string)
      modifies this
      ensures Data() == old(Data()).(role := role)
    {
      this.role := role;
    }

    method SetNotes(notes: string)
      modifies this
      ensures Data() == old(Data()).(notes := notes)
    {
      this.notes := notes;
    }
  }
}
